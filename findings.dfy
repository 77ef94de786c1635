/**
 * Two defects on the way from the command line to the token manager, each
 * stated about the code as written and about its correction.
 */
module Findings {
  import opened Common
  import WorkerOptions
  import Tokens
  import Worker

  /** As written, options built by the constructor never select the TVM
      manager: the constructor stores the token kind only in `other`, while
      make_token reads the public field, which stays empty. With no
      COCAINE_APP_TOKEN_TYPE set, `other` says "TVM" and the manager is still
      the null one. */
  lemma ConstructedOptionsSelectNull(cl: WorkerOptions.CommandLine, env: WorkerOptions.Environment, indeterminate: u64)
    requires WorkerOptions.Construct(cl, env, indeterminate).Built?
    ensures var o := WorkerOptions.Construct(cl, env, indeterminate).options;
      && !Tokens.UsesTvm(o)
      && Tokens.MakeToken(o) == Tokens.DefaultToken
      && (WorkerOptions.EnvTokenType !in env ==> o.other["token_type"] == WorkerOptions.Str(WorkerOptions.DefaultTokenType))
  {
  }

  /** A concrete command line that shows it: all required options given,
      nothing in the environment. */
  lemma DefaultCommandLineSelectsNull(indeterminate: u64)
    ensures var cl := WorkerOptions.CommandLine({}, map["app" := "a", "uuid" := "u", "endpoint" := "e", "locator" := "l"], None);
      var r := WorkerOptions.Construct(cl, map[], indeterminate);
      && r.Built?
      && r.options.other["token_type"] == WorkerOptions.Str("TVM")
      && !Tokens.UsesTvm(r.options)
  {
  }

  /** Corrected, the options select the TVM manager exactly when the
      environment names no other kind, and carry the environment's or the
      default credential. */
  lemma CorrectedOptionsSelectConfiguredKind(cl: WorkerOptions.CommandLine, env: WorkerOptions.Environment, indeterminate: u64)
    requires WorkerOptions.ConstructCorrected(cl, env, indeterminate).Built?
    ensures var o := WorkerOptions.ConstructCorrected(cl, env, indeterminate).options;
      && (Tokens.UsesTvm(o) <==>
          (WorkerOptions.EnvTokenType !in env || env[WorkerOptions.EnvTokenType] == WorkerOptions.DefaultTokenType))
      && Tokens.MakeToken(o) == Tokens.Token(
           WorkerOptions.EnvOr(env, WorkerOptions.EnvTokenType, WorkerOptions.DefaultTokenType),
           WorkerOptions.EnvOr(env, WorkerOptions.EnvTokenBody, WorkerOptions.DefaultTokenBody))
      && o.refreshTicketIntervalSec == 15
  {
  }

  /** As written, worker_t::impl hands token_manager_t::make its `options`
      parameter after moving it into the member, so the TVM manager is never
      selected, even for options configured with the "TVM" kind. */
  lemma ImplOptionsNeverSelectTvm(o: WorkerOptions.Options)
    ensures !Tokens.UsesTvm(Worker.MovedFrom(o))
    ensures o.tokenType == WorkerOptions.DefaultTokenType ==> Tokens.UsesTvm(o) != Tokens.UsesTvm(Worker.MovedFrom(o))
  {
  }
}
