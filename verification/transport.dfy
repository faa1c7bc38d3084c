/**
 * The SMTP conversation as a sequence of transport actions, run against a
 * script that says which attempts the server lets through.
 */
module Transport {
  import opened Settings
  import opened Messages

  /** One call the sender makes on the mail transport. */
  datatype Action =
    | Connect(host: string, port: nat)       // plain connection
    | ConnectSsl(host: string, port: nat)    // SSL-wrapped connection
    | Ehlo
    | StartTls
    | Login(username: string, password: string)
    | SendMessage(msg: Message)

  /** The result of a send: success, and the actions attempted in order. */
  datatype Delivery = Delivery(ok: bool, attempted: seq<Action>)

  /**
   * The transport's behaviour: the k-th attempted action succeeds exactly when
   * the script has an entry k and it is true; any other attempt raises.
   */
  predicate Answers(script: seq<bool>, k: nat) {
    k < |script| && script[k]
  }

  /**
   * Runs the plan in order and stops at the first action that raises; the
   * run succeeds only when every action of the plan went through.
   */
  function Run(plan: seq<Action>, script: seq<bool>): (d: Delivery)
    ensures d.attempted <= plan
    ensures d.ok <==> forall k :: 0 <= k < |plan| ==> Answers(script, k)
    ensures d.ok ==> d.attempted == plan
    ensures !d.ok ==> |d.attempted| > 0 && !Answers(script, |d.attempted| - 1)
    ensures forall k :: 0 <= k < |d.attempted| - 1 ==> Answers(script, k)
  {
    RunFrom(plan, script, 0)
  }

  /** `Run` from the action at index `from` onwards, counting attempts by their index in the plan. */
  function RunFrom(plan: seq<Action>, script: seq<bool>, from: nat): (d: Delivery)
    requires from <= |plan|
    ensures d.attempted <= plan[from..]
    ensures d.ok <==> forall k :: from <= k < |plan| ==> Answers(script, k)
    ensures d.ok ==> d.attempted == plan[from..]
    ensures !d.ok ==> |d.attempted| > 0 && !Answers(script, from + |d.attempted| - 1)
    ensures forall k :: from <= k < from + |d.attempted| - 1 ==> Answers(script, k)
    decreases |plan| - from
  {
    if from == |plan| then Delivery(true, [])
    else if !Answers(script, from) then Delivery(false, [plan[from]])
    else
      var rest := RunFrom(plan, script, from + 1);
      assert plan[from..] == [plan[from]] + plan[from + 1..];
      Delivery(rest.ok, [plan[from]] + rest.attempted)
  }

  /** Login is attempted exactly when a username or a password is configured. */
  predicate HasCredentials(cfg: Config) {
    cfg.username != "" || cfg.password != ""
  }

  /**
   * The SMTP conversation: SSL mode connects over SSL, optionally logs in and
   * sends; otherwise it connects, greets, upgrades with STARTTLS and greets
   * again when TLS is on, optionally logs in and sends.
   */
  function Plan(cfg: Config, msg: Message): (p: seq<Action>)
    ensures |p| == 2 + (if HasCredentials(cfg) then 1 else 0) + (if cfg.useSsl then 0 else 1)
                     + (if !cfg.useSsl && cfg.useTls then 2 else 0)
    ensures p[|p| - 1] == SendMessage(msg)
    ensures forall k :: 0 <= k < |p| - 1 ==> !p[k].SendMessage?
    ensures p[0] == if cfg.useSsl then ConnectSsl(cfg.host, cfg.port) else Connect(cfg.host, cfg.port)
    ensures forall k :: 0 < k < |p| ==> !p[k].Connect? && !p[k].ConnectSsl?
    ensures HasCredentials(cfg) <==> exists k :: 0 <= k < |p| && p[k].Login?
    ensures HasCredentials(cfg) ==> |p| >= 2 && p[|p| - 2] == Login(cfg.username, cfg.password)
    ensures (exists k :: 0 <= k < |p| && p[k] == StartTls) <==> !cfg.useSsl && cfg.useTls
    ensures !cfg.useSsl ==> p[1] == Ehlo
    ensures !cfg.useSsl && cfg.useTls ==> p[2] == StartTls && p[3] == Ehlo
    ensures cfg.useSsl ==> forall k :: 0 <= k < |p| ==> p[k] != Ehlo
  {
    var login := if HasCredentials(cfg) then [Login(cfg.username, cfg.password)] else [];
    var upgrade := if !cfg.useSsl && cfg.useTls then [StartTls, Ehlo] else [];
    var opening := if cfg.useSsl then [ConnectSsl(cfg.host, cfg.port)] else [Connect(cfg.host, cfg.port), Ehlo];
    var p := opening + upgrade + login + [SendMessage(msg)];
    assert forall k :: 0 <= k < |p| ==> (p[k].Login? <==> HasCredentials(cfg) && k == |p| - 2);
    assert forall k :: 0 <= k < |p| ==> (p[k] == StartTls <==> |upgrade| > 0 && k == |opening|);
    assert HasCredentials(cfg) ==> p[|p| - 2].Login?;
    assert |upgrade| > 0 ==> p[|opening|] == StartTls;
    p
  }
}
