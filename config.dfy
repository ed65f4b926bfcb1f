/**
 * Start-up validation of the application configuration: three rules
 * checked in a fixed order, each adding one message to an error list,
 * and a ValueError carrying the joined list when any rule is broken.
 */
module Configuration {
  import opened Text

  /** The environment values `validate` reads; an unset variable is "". */
  datatype Settings = Settings(
    openAiApiKey: string,
    supabaseUrl: string,
    supabaseAnonKey: string,
    supabaseServiceRoleKey: string)

  /** `validate` either returns normally or raises ValueError(message). */
  datatype Validation = Passed | ValueError(message: string)

  const OpenAiKeyRequired := "OPENAI_API_KEY is required"
  const SupabaseUrlRequired := "SUPABASE_URL is required"
  const SupabaseKeyRequired := "SUPABASE_ANON_KEY or SUPABASE_SERVICE_ROLE_KEY is required"
  const ErrorPrefix := "Configuration errors: "

  /** The rule messages, in the order the rules are checked. */
  const RuleMessages: seq<string> := [OpenAiKeyRequired, SupabaseUrlRequired, SupabaseKeyRequired]

  /** Rule `k` of the three is broken by `c` (an empty string is falsy). */
  predicate RuleBroken(c: Settings, k: nat)
    requires k < |RuleMessages|
  {
    if k == 0 then c.openAiApiKey == ""
    else if k == 1 then c.supabaseUrl == ""
    else c.supabaseAnonKey == "" && c.supabaseServiceRoleKey == ""
  }

  /** The messages of the broken rules among the first `k`, in rule order. */
  function BrokenRules(c: Settings, k: nat): seq<string>
    requires k <= |RuleMessages|
  {
    if k == 0 then []
    else BrokenRules(c, k - 1) + (if RuleBroken(c, k - 1) then [RuleMessages[k - 1]] else [])
  }

  /** The error list `validate` builds for `c`. */
  function ConfigErrors(c: Settings): seq<string>
  {
    BrokenRules(c, |RuleMessages|)
  }

  /**
   * Config.validate: appends one message per broken rule, then raises
   * with the messages joined by ", " when the list is not empty.
   */
  method Validate(c: Settings) returns (v: Validation)
    ensures v.Passed? <==>
      c.openAiApiKey != "" && c.supabaseUrl != ""
      && (c.supabaseAnonKey != "" || c.supabaseServiceRoleKey != "")
    ensures v.ValueError? ==> v.message == ErrorPrefix + Join(ConfigErrors(c), ", ")
  {
    var errors: seq<string> := [];
    if c.openAiApiKey == "" {
      errors := errors + [OpenAiKeyRequired];
    }
    assert errors == BrokenRules(c, 1);
    if c.supabaseUrl == "" {
      errors := errors + [SupabaseUrlRequired];
    }
    assert errors == BrokenRules(c, 2);
    if c.supabaseAnonKey == "" && c.supabaseServiceRoleKey == "" {
      errors := errors + [SupabaseKeyRequired];
    }
    assert errors == ConfigErrors(c);
    if errors != [] {
      v := ValueError(ErrorPrefix + Join(errors, ", "));
    } else {
      v := Passed;
    }
  }

  /** Each rule's message is reported exactly when that rule is broken. */
  lemma {:induction false} ReportedIffBroken(c: Settings, k: nat)
    requires k < |RuleMessages|
    ensures RuleMessages[k] in ConfigErrors(c) <==> RuleBroken(c, k)
  {
    var e0 := BrokenRules(c, 0);
    var e1 := BrokenRules(c, 1);
    var e2 := BrokenRules(c, 2);
    assert e0 == [];
    assert e1 == e0 + (if RuleBroken(c, 0) then [OpenAiKeyRequired] else []);
    assert e2 == e1 + (if RuleBroken(c, 1) then [SupabaseUrlRequired] else []);
    assert ConfigErrors(c) == e2 + (if RuleBroken(c, 2) then [SupabaseKeyRequired] else []);
  }

  /** The rule that produced `msg`, by its position in the check order. */
  function RuleIndex(msg: string): nat
  {
    if msg == OpenAiKeyRequired then 0 else if msg == SupabaseUrlRequired then 1 else 2
  }

  /**
   * The reported errors keep the check order: an earlier error comes from
   * an earlier rule, so no message is repeated.
   */
  lemma {:induction false} ErrorsInCheckOrder(c: Settings, k: nat)
    requires k <= |RuleMessages|
    ensures forall e :: e in BrokenRules(c, k) ==> e in RuleMessages && RuleIndex(e) < k
    ensures forall i, j :: 0 <= i < j < |BrokenRules(c, k)| ==>
      RuleIndex(BrokenRules(c, k)[i]) < RuleIndex(BrokenRules(c, k)[j])
  {
    if k > 0 {
      ErrorsInCheckOrder(c, k - 1);
      assert RuleIndex(RuleMessages[k - 1]) == k - 1;
    }
  }

  /** Either Supabase key alone satisfies the third rule. */
  lemma OneSupabaseKeySuffices(c: Settings)
    requires c.openAiApiKey != "" && c.supabaseUrl != ""
    requires c.supabaseAnonKey != "" || c.supabaseServiceRoleKey != ""
    ensures ConfigErrors(c) == []
  {
    assert BrokenRules(c, 1) == [];
    assert BrokenRules(c, 2) == [];
  }
}
