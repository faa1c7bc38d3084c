/**
 * Message composition: the From header, the plain-text part, the links the
 * verification and reset e-mails carry, and the three e-mails' contents.
 */
module Messages {
  import opened Results
  import opened Settings

  /** The HTML alternative part, by template; the markup itself is fixed copy around these values. */
  datatype Html =
    | VerifyPage(username: string, link: string)
    | ResetPage(username: string, link: string)
    | WelcomePage(username: string, homeUrl: string)

  /** A composed e-mail: the header fields, the plain-text part and the HTML part. */
  datatype Message = Message(from: string, to: string, subject: string, text: string, html: Html)

  const TextFallback := "This email contains HTML content."
  const TokenQuery := "?token="

  const VerifySubject := "Verify Your ReviewHub Account"
  const ResetSubject := "Reset Your ReviewHub Password"
  const WelcomeSubject := "Welcome to ReviewHub \U{1F389}"

  /** The From header: "name <address>" when a display name is configured, else the bare address. */
  function FromHeader(cfg: Config): (h: string)
    ensures |h| == |cfg.fromEmail| + if cfg.fromName == "" then 0 else |cfg.fromName| + 3
    ensures OccursAt(cfg.fromEmail, h, if cfg.fromName == "" then 0 else |cfg.fromName| + 2)
  {
    if cfg.fromName != "" then cfg.fromName + " <" + cfg.fromEmail + ">" else cfg.fromEmail
  }

  /** The plain-text part: the supplied text when it is non-empty, else the fixed fallback. */
  function PlainText(text: Option<string>): (t: string)
    ensures t != ""
    ensures text.Some? && text.value != "" ==> t == text.value
    ensures text.None? || text.value == "" ==> t == TextFallback
  {
    match text
    case Some(s) => if s != "" then s else TextFallback
    case None => TextFallback
  }

  /** The message `_send_email` builds before it touches the transport. */
  function Compose(cfg: Config, to: string, subject: string, html: Html, text: Option<string>): (m: Message)
    ensures m.from == FromHeader(cfg) && m.to == to && m.subject == subject && m.html == html
    ensures m.text == PlainText(text)
    ensures m.text != ""
  {
    Message(FromHeader(cfg), to, subject, PlainText(text), html)
  }

  /** A link to a frontend page carrying a token: the base, then "?token=", then the token, unescaped. */
  function Link(base: string, token: string): (r: string)
    ensures |r| == |base| + |TokenQuery| + |token| && r[..|base|] == base
    ensures OccursAt(TokenQuery, r, |base|)
    ensures r[|base| + |TokenQuery|..] == token
  {
    base + TokenQuery + token
  }

  function VerifyLink(cfg: Config, token: string): string {
    Link(cfg.verifyUrl, token)
  }

  function ResetLink(cfg: Config, token: string): string {
    Link(cfg.resetUrl, token)
  }

  /** The last position of `c` in `s`, if any. */
  function LastIndexOf(s: string, c: char): (r: Option<nat>)
    ensures r.Some? ==> r.value < |s| && s[r.value] == c && forall j :: r.value < j < |s| ==> s[j] != c
    ensures r.None? ==> forall j :: 0 <= j < |s| ==> s[j] != c
    decreases |s|
  {
    if |s| == 0 then None
    else if s[|s| - 1] == c then Some(|s| - 1)
    else LastIndexOf(s[..|s| - 1], c)
  }

  /** A position holding `c` with no `c` after it is the last position of `c`. */
  lemma LastIndexOfAt(s: string, c: char, p: nat)
    requires p < |s| && s[p] == c
    requires forall j :: p < j < |s| ==> s[j] != c
    ensures LastIndexOf(s, c) == Some(p)
  {
  }

  /**
   * Reads a link back: the part before the last '?' and the token after
   * "?token=", or None when the link does not end in a token query.
   */
  function SplitLink(link: string): Option<(string, string)> {
    match LastIndexOf(link, '?')
    case None => None
    case Some(i) =>
      var query := link[i + 1..];
      if |query| >= 6 && query[..6] == "token=" then Some((link[..i], query[6..])) else None
  }

  /** A token with no '?' in it is appended exactly once: the link reads back as its base and token. */
  lemma LinkSplits(base: string, token: string)
    requires forall k :: 0 <= k < |token| ==> token[k] != '?'
    ensures SplitLink(Link(base, token)) == Some((base, token))
  {
    var link := Link(base, token);
    var p := |base|;
    assert link[p] == '?';
    assert forall j :: p < j < |link| ==> link[j] != '?' by {
      forall j | p < j < |link|
        ensures link[j] != '?'
      {
        if j <= p + 6 {
          assert link[j] == TokenQuery[j - p];
        } else {
          assert link[j] == token[j - p - 7];
        }
      }
    }
    LastIndexOfAt(link, '?', p);
    assert link[p + 1..] == "token=" + token;
    assert link[..p] == base;
  }

  /** The address a From header names: between the last '<' and a closing '>', or the whole header. */
  function HeaderAddress(h: string): string {
    if |h| > 0 && h[|h| - 1] == '>' then
      match LastIndexOf(h, '<')
      case None => h
      case Some(i) => h[i + 1..|h| - 1]
    else h
  }

  /**
   * The From header names the configured address (when the address has no angle
   * brackets); with a display name it starts with that name followed by " <",
   * and without one it is the bare address.
   */
  lemma FromHeaderNamesAddress(cfg: Config)
    requires forall k :: 0 <= k < |cfg.fromEmail| ==> cfg.fromEmail[k] != '<' && cfg.fromEmail[k] != '>'
    ensures HeaderAddress(FromHeader(cfg)) == cfg.fromEmail
    ensures cfg.fromName != "" ==> OccursAt(cfg.fromName + " <", FromHeader(cfg), 0)
    ensures cfg.fromName == "" ==> FromHeader(cfg) == cfg.fromEmail
  {
    if cfg.fromName != "" {
      assert FromHeader(cfg) == cfg.fromName + " <" + cfg.fromEmail + ">";
      NamedHeaderAddress(cfg.fromName, cfg.fromEmail);
    } else {
      BareHeaderAddress(cfg.fromEmail);
    }
  }

  /** In "name <address>" the address reads back when it has no '<' of its own. */
  lemma NamedHeaderAddress(name: string, address: string)
    requires forall k :: 0 <= k < |address| ==> address[k] != '<'
    ensures HeaderAddress(name + " <" + address + ">") == address
  {
    var h := name + " <" + address + ">";
    var p := |name| + 1;
    assert h[p] == '<';
    assert forall j :: p < j < |h| - 1 ==> h[j] == address[j - p - 1];
    LastIndexOfAt(h, '<', p);
    assert h[p + 1..|h| - 1] == address;
  }

  /** A bare address with no '>' reads back as itself. */
  lemma BareHeaderAddress(address: string)
    requires forall k :: 0 <= k < |address| ==> address[k] != '>'
    ensures HeaderAddress(address) == address
  {
  }

  function VerificationText(link: string): string {
    "Verify your account:\n" + link + "\n(This link expires in 24 hours.)"
  }

  function ResetText(link: string): string {
    "Reset your password:\n" + link + "\n(This link expires in 1 hour.)"
  }

  /** The e-mail `send_verification_email` asks to be sent. */
  function VerificationMessage(cfg: Config, userEmail: string, username: string, token: string): (m: Message)
    ensures m.to == userEmail && m.subject == VerifySubject
    ensures m.html.VerifyPage? && m.html.link == VerifyLink(cfg, token)
  {
    var link := VerifyLink(cfg, token);
    Compose(cfg, userEmail, VerifySubject, VerifyPage(username, link), Some(VerificationText(link)))
  }

  /** The e-mail `send_password_reset_email` asks to be sent. */
  function ResetMessage(cfg: Config, userEmail: string, username: string, token: string): (m: Message)
    ensures m.to == userEmail && m.subject == ResetSubject
    ensures m.html.ResetPage? && m.html.link == ResetLink(cfg, token)
  {
    var link := ResetLink(cfg, token);
    Compose(cfg, userEmail, ResetSubject, ResetPage(username, link), Some(ResetText(link)))
  }

  /** The e-mail `send_welcome_email` asks to be sent; it supplies no plain text. */
  function WelcomeMessage(cfg: Config, userEmail: string, username: string): (m: Message)
    ensures m.to == userEmail && m.subject == WelcomeSubject
    ensures m.text == TextFallback
  {
    Compose(cfg, userEmail, WelcomeSubject, WelcomePage(username, cfg.frontendUrl), None)
  }

  /** Does `s` contain `part` starting at position `at`? */
  predicate OccursAt(part: string, s: string, at: nat) {
    at + |part| <= |s| && s[at..at + |part|] == part
  }

  /**
   * The verification e-mail goes to the user, links to the verification base
   * with the token in the query, and repeats that link in its plain text.
   */
  lemma VerificationMessageShape(cfg: Config, userEmail: string, username: string, token: string)
    ensures var m := VerificationMessage(cfg, userEmail, username, token);
      && m.to == userEmail && m.from == FromHeader(cfg) && m.subject == VerifySubject
      && m.html == VerifyPage(username, cfg.verifyUrl + "?token=" + token)
      && OccursAt(cfg.verifyUrl + "?token=" + token, m.text, 21)
      && m.text != TextFallback
  {
  }

  /** The reset e-mail links to the reset base with the token and repeats the link in its plain text. */
  lemma ResetMessageShape(cfg: Config, userEmail: string, username: string, token: string)
    ensures var m := ResetMessage(cfg, userEmail, username, token);
      && m.to == userEmail && m.from == FromHeader(cfg) && m.subject == ResetSubject
      && m.html == ResetPage(username, cfg.resetUrl + "?token=" + token)
      && OccursAt(cfg.resetUrl + "?token=" + token, m.text, 21)
      && m.text != TextFallback
  {
  }

  /** The welcome e-mail always carries the fallback plain text and links to the frontend home. */
  lemma WelcomeMessageShape(cfg: Config, userEmail: string, username: string)
    ensures var m := WelcomeMessage(cfg, userEmail, username);
      && m.to == userEmail && m.from == FromHeader(cfg) && m.subject == WelcomeSubject
      && m.text == TextFallback
      && m.html == WelcomePage(username, cfg.frontendUrl)
  {
  }
}
