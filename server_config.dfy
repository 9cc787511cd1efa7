/**
 * Environment-derived settings of clouddeploy/server.py. The environment itself
 * is a parameter: `os.getenv(name, "")` of a variable that is not set is "".
 */
module ServerConfig {
  import opened Wrappers
  import opened Text

  const TrueWords: set<string> := {"1", "true", "yes", "on"}
  const FalseWords: set<string> := {"0", "false", "no", "off"}

  /** The form `_strict_policy` compares: stripped, then lower-cased. */
  function Normalize(raw: string): string
  {
    Lower(Strip(raw))
  }

  /** `_strict_policy()` applied to the value of CLOUDDEPLOY_STRICT_POLICY. */
  function StrictPolicy(raw: string): (r: Option<bool>)
    ensures r == Some(true) <==> Normalize(raw) in TrueWords
    ensures r == Some(false) <==> Normalize(raw) in FalseWords
    ensures r == None <==> Normalize(raw) !in TrueWords + FalseWords
  {
    var v := Normalize(raw);
    if v in TrueWords then Some(true)
    else if v in FalseWords then Some(false)
    else None
  }

  /** Whitespace around the value never changes the policy. */
  lemma StrictPolicyIgnoresPadding(pre: string, raw: string, post: string)
    requires AllSpace(pre) && AllSpace(post)
    ensures StrictPolicy(pre + raw + post) == StrictPolicy(raw)
  {
    StripIgnoresPadding(pre, raw, post);
  }

  /** The policy does not depend on letter case. */
  lemma StrictPolicyIgnoresCase(raw: string)
    ensures StrictPolicy(Lower(raw)) == StrictPolicy(raw)
  {
    StripLower(raw);
    LowerIdempotent(Strip(raw));
  }

  /** An unset variable leaves the policy to the registry's own default. */
  lemma StrictPolicyUnset()
    ensures StrictPolicy("") == None
  {
    assert Lower("") == "";
  }

  /**
   * `_default_cmd()`: CLOUDDEPLOY_RUN_CMD, else CLOUDDEPLOY_DEFAULT_CMD, else
   * "bash" (an empty value counts as unset).
   */
  function DefaultCmd(runCmd: string, defaultCmd: string): (r: string)
    ensures r != ""
    ensures runCmd != "" ==> r == runCmd
    ensures runCmd == "" && defaultCmd != "" ==> r == defaultCmd
    ensures runCmd == "" && defaultCmd == "" ==> r == "bash"
  {
    if runCmd != "" then runCmd else if defaultCmd != "" then defaultCmd else "bash"
  }
}
