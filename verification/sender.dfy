/**
 * The send decision procedure and the three e-mail operations built on it.
 * The transport is the script of `Transport.Answers`; nothing here performs I/O.
 */
module Sender {
  import opened Results
  import opened Environment
  import opened Text
  import opened Settings
  import opened Messages
  import opened Transport

  const ConsoleBackend := "console"

  /**
   * `_send_email`: the console backend succeeds without touching the transport,
   * an empty host fails without touching it, and otherwise the SMTP
   * conversation for the composed message runs until an action raises.
   */
  function SendEmail(cfg: Config, to: string, subject: string, html: Html, text: Option<string>,
                     script: seq<bool>): (d: Delivery)
    ensures cfg.backend == ConsoleBackend ==> d.ok && d.attempted == []
    ensures cfg.backend != ConsoleBackend && cfg.host == "" ==> !d.ok && d.attempted == []
    ensures cfg.backend != ConsoleBackend && cfg.host != "" ==>
              var plan := Plan(cfg, Compose(cfg, to, subject, html, text));
              && d.attempted <= plan
              && |d.attempted| > 0
              && (d.ok <==> forall k :: 0 <= k < |plan| ==> Answers(script, k))
              && (d.ok ==> d.attempted[|d.attempted| - 1] == SendMessage(Compose(cfg, to, subject, html, text)))
              && (!d.ok ==> !Answers(script, |d.attempted| - 1))
    ensures d.ok ==> forall k :: 0 <= k < |d.attempted| ==> Answers(script, k)
    ensures forall k :: 0 <= k < |d.attempted| - 1 ==> Answers(script, k)
  {
    if cfg.backend == ConsoleBackend then Delivery(true, [])
    else if cfg.host == "" then Delivery(false, [])
    else Run(Plan(cfg, Compose(cfg, to, subject, html, text)), script)
  }

  /**
   * `send_verification_email`: a delivered e-mail (other than on the console)
   * ends with the verification message handed to the transport.
   */
  function SendVerificationEmail(cfg: Config, userEmail: string, username: string, token: string,
                                 script: seq<bool>): (d: Delivery)
    ensures d.ok && cfg.backend != ConsoleBackend ==>
              (|d.attempted| > 0 &&
               d.attempted[|d.attempted| - 1] == SendMessage(VerificationMessage(cfg, userEmail, username, token)))
    ensures cfg.backend != ConsoleBackend && cfg.host == "" ==> d == Delivery(false, [])
    ensures cfg.backend == ConsoleBackend ==> d == Delivery(true, [])
    ensures cfg.backend != ConsoleBackend && cfg.host != "" ==> d == Run(Plan(cfg, VerificationMessage(cfg, userEmail, username, token)), script)
  {
    var link := VerifyLink(cfg, token);
    SendEmail(cfg, userEmail, VerifySubject, VerifyPage(username, link), Some(VerificationText(link)), script)
  }

  /**
   * `send_password_reset_email`: a delivered e-mail (other than on the console)
   * ends with the reset message handed to the transport.
   */
  function SendPasswordResetEmail(cfg: Config, userEmail: string, username: string, token: string,
                                  script: seq<bool>): (d: Delivery)
    ensures d.ok && cfg.backend != ConsoleBackend ==>
              (|d.attempted| > 0 &&
               d.attempted[|d.attempted| - 1] == SendMessage(ResetMessage(cfg, userEmail, username, token)))
    ensures cfg.backend != ConsoleBackend && cfg.host == "" ==> d == Delivery(false, [])
    ensures cfg.backend == ConsoleBackend ==> d == Delivery(true, [])
    ensures cfg.backend != ConsoleBackend && cfg.host != "" ==> d == Run(Plan(cfg, ResetMessage(cfg, userEmail, username, token)), script)
  {
    var link := ResetLink(cfg, token);
    SendEmail(cfg, userEmail, ResetSubject, ResetPage(username, link), Some(ResetText(link)), script)
  }

  /**
   * `send_welcome_email`: no plain text is supplied; a delivered e-mail (other
   * than on the console) ends with the welcome message handed to the transport.
   */
  function SendWelcomeEmail(cfg: Config, userEmail: string, username: string, script: seq<bool>): (d: Delivery)
    ensures d.ok && cfg.backend != ConsoleBackend ==>
              (|d.attempted| > 0 &&
               d.attempted[|d.attempted| - 1] == SendMessage(WelcomeMessage(cfg, userEmail, username)))
    ensures cfg.backend != ConsoleBackend && cfg.host == "" ==> d == Delivery(false, [])
    ensures cfg.backend == ConsoleBackend ==> d == Delivery(true, [])
    ensures cfg.backend != ConsoleBackend && cfg.host != "" ==> d == Run(Plan(cfg, WelcomeMessage(cfg, userEmail, username)), script)
  {
    SendEmail(cfg, userEmail, WelcomeSubject, WelcomePage(username, cfg.frontendUrl), None, script)
  }

  /** The backend selector is lower-cased, so "console" in any letter case never touches the transport. */
  lemma ConsoleInAnyCase(env: Env, to: string, subject: string, html: Html, text: Option<string>,
                         script: seq<bool>)
    requires LoadConfig(env).Success?
    requires BackendName in env && SameIgnoringCase(env[BackendName], "console")
    ensures SendEmail(LoadConfig(env).value, to, subject, html, text, script) == Delivery(true, [])
  {
  }

  /**
   * With any other backend and no host variable set to a non-empty value,
   * every e-mail fails without a connection attempt.
   */
  lemma NoHostFails(env: Env, userEmail: string, username: string, token: string, script: seq<bool>)
    requires LoadConfig(env).Success?
    requires BackendName !in env || !SameIgnoringCase(env[BackendName], "console")
    requires !IsSet(env, "SMTP_HOST") && !IsSet(env, "SMTP_SERVER") && !IsSet(env, "MAIL_SERVER")
    ensures var cfg := LoadConfig(env).value;
      && SendVerificationEmail(cfg, userEmail, username, token, script) == Delivery(false, [])
      && SendPasswordResetEmail(cfg, userEmail, username, token, script) == Delivery(false, [])
      && SendWelcomeEmail(cfg, userEmail, username, script) == Delivery(false, [])
  {
    BackendSelector(env);
    HostPrecedence(env);
  }

  /**
   * A send over SMTP ends at the first action that raises: it fails, having
   * attempted exactly the conversation's actions up to and including that one.
   */
  lemma StopsAtFirstFailure(cfg: Config, to: string, subject: string, html: Html, text: Option<string>,
                            script: seq<bool>, f: nat)
    requires cfg.backend != ConsoleBackend && cfg.host != ""
    requires var plan := Plan(cfg, Compose(cfg, to, subject, html, text));
      f < |plan| && !Answers(script, f) && forall k :: 0 <= k < f ==> Answers(script, k)
    ensures var plan := Plan(cfg, Compose(cfg, to, subject, html, text));
      SendEmail(cfg, to, subject, html, text, script) == Delivery(false, plan[..f + 1])
  {
  }

  /** A transport that lets every action through delivers: the whole conversation runs, ending in the send. */
  lemma AllAnsweredDelivers(cfg: Config, to: string, subject: string, html: Html, text: Option<string>,
                            script: seq<bool>)
    requires cfg.backend != ConsoleBackend && cfg.host != ""
    requires forall k :: 0 <= k < |script| ==> script[k]
    requires |script| >= |Plan(cfg, Compose(cfg, to, subject, html, text))|
    ensures var d := SendEmail(cfg, to, subject, html, text, script);
      && d.ok && d.attempted == Plan(cfg, Compose(cfg, to, subject, html, text))
      && d.attempted[|d.attempted| - 1] == SendMessage(Compose(cfg, to, subject, html, text))
  {
  }

  /**
   * When the server rejects the login, the send fails and the message is never
   * handed to the transport.
   */
  lemma FailedLoginNeverSends(cfg: Config, to: string, subject: string, html: Html, text: Option<string>,
                              script: seq<bool>, k: nat)
    requires cfg.backend != ConsoleBackend && cfg.host != ""
    requires var plan := Plan(cfg, Compose(cfg, to, subject, html, text));
      k < |plan| && plan[k].Login? && !Answers(script, k)
    ensures var d := SendEmail(cfg, to, subject, html, text, script);
      && !d.ok
      && forall j :: 0 <= j < |d.attempted| ==> !d.attempted[j].SendMessage?
  {
  }
}
