# ReviewHub e-mail service — a Dafny model

This project models the decision layer of the ReviewHub backend's e-mail
service (`reviewhub-backend/email_service.py`): how the service reads its
settings from the environment, how `_send_email` chooses between the console
backend, an immediate failure and the SMTP conversation, how the verification,
password-reset and welcome e-mails and their links are put together, and the
shape of the tokens `generate_token` produces.

The SMTP server is abstract. A send is a pure function of the configuration,
the message parts and a *script*: the k-th transport action attempted
succeeds exactly when the script has an entry k that is `true`
(`Transport.Answers`); any other attempt stands for an exception from the mail
library. A send returns a `Delivery`: the boolean the service returns, and the
transport actions it attempted in order (`Connect`, `ConnectSsl`, `Ehlo`,
`StartTls`, `Login`, `SendMessage`).

Modules, one file each:

- `Results` (`results.dfy`): `Option` and `Result`.
- `Text` (`text.dfy`): ASCII lowercasing, decimal numerals.
- `Environment` (`environment.dfy`): `os.getenv` with and without a default, and `or` chains of variables.
- `Settings` (`settings.dfy`): the `Config` record and `LoadConfig`, the constructor.
- `Messages` (`messages.dfy`): the From header, the plain-text part, links, and the three e-mails' contents.
- `Transport` (`transport.dfy`): transport actions, the conversation plan and its run.
- `Sender` (`sender.dfy`): `_send_email` and the three public send operations.
- `Token` (`token.dfy`): the token alphabet, `generate_token`, and tokens inside links.

A link base that already holds a query (say a `FRONTEND_VERIFY_URL` ending in
`?lang=en`) gets a second `?` from the link builder. The model keeps this
behaviour. `Messages.SplitLink` reads a link back at its last `?`, so the
round trip holds for any base.

## Model

| member | source | states |
|---|---|---|
| Text.Lower | reviewhub-backend/email_service.py:16 | The lower-cased string has the input's length, maps each character by ASCII case folding, and holds no capital letter. |
| Text.LowerIsWordIff | reviewhub-backend/email_service.py:41-42 | For a lower-case word w, a value lower-cases to w exactly when it spells w in some mix of letter cases. |
| Text.ParseShowDecimal | reviewhub-backend/email_service.py:25-29 | Reading the decimal numeral of any natural number gives back that number. |
| Environment.GetenvOr | reviewhub-backend/email_service.py:46-51 | A getenv with a default returns the variable's value whenever it is set, even to "". It returns the default only when the variable is unset. |
| Environment.FirstNonEmpty | reviewhub-backend/email_service.py:19-24 | An `or` chain yields "" only when its fallback literal is "". Its full precedence rule is Environment.FirstNonEmptyRule. |
| Environment.FirstNonEmptyRule | reviewhub-backend/email_service.py:19-24 | An `or` chain of getenv calls yields the value of the first candidate set to a non-empty string. It yields the fallback literal only when no candidate is so set. Whatever it yields is a candidate's value or the fallback. |
| Environment.EmptyIsSkipped | reviewhub-backend/email_service.py:19-39 | In an `or` chain, a variable set to the empty string behaves exactly as if it were unset. |
| Settings.Flag | reviewhub-backend/email_service.py:41-42 | A boolean setting is true exactly when the chosen value spells "true" in some mix of letter cases. |
| Settings.ParsePort | reviewhub-backend/email_service.py:25-29 | The port text parses exactly when it is a non-empty string of decimal digits. Otherwise the error names the text. |
| Settings.PortRoundTrip | reviewhub-backend/email_service.py:25-29 | The numeral of any port number parses back to that number. |
| Settings.LoadConfig | reviewhub-backend/email_service.py:14-51 | The constructor succeeds exactly when the chosen port text is a numeral. Otherwise it fails with that text. Field by field, the settings follow the precedence lemmas below, from Settings.PortChain to Settings.BackendSelector. |
| Settings.PortChain | reviewhub-backend/email_service.py:25-29 | The port text is `SMTP_PORT` if non-empty, else `MAIL_PORT` if non-empty, else "587". |
| Settings.LoadFailsOnlyOnPort | reviewhub-backend/email_service.py:25-29 | Construction fails exactly when the chosen port variable holds a non-numeral, and the error carries the chosen text. |
| Settings.DefaultPortIs587 | reviewhub-backend/email_service.py:25-29 | With neither port variable set to a non-empty value, construction succeeds with port 587. |
| Settings.PortFromDigits | reviewhub-backend/email_service.py:25-29 | Any string of decimal digits in `SMTP_PORT`, leading zeros included, loads as the port with that value. |
| Settings.PortFromEnvironment | reviewhub-backend/email_service.py:25-29 | The shortest numeral of n in `SMTP_PORT` gives port n. |
| Settings.HostPrecedence | reviewhub-backend/email_service.py:19-24 | The host is `SMTP_HOST`, then `SMTP_SERVER`, then `MAIL_SERVER`, then "", skipping unset and empty variables. |
| Settings.CredentialPrecedence | reviewhub-backend/email_service.py:30-39 | The username and password each come from the `SMTP_` name, then the `MAIL_` name, then "". |
| Settings.FromEmailPrecedence | reviewhub-backend/email_service.py:45 | The sender address is `FROM_EMAIL`, then `MAIL_DEFAULT_SENDER`, then "noreply@reviewhub.com". |
| Settings.TlsFlagRule | reviewhub-backend/email_service.py:41 | STARTTLS is on iff the first non-empty of `SMTP_USE_TLS` and `MAIL_USE_TLS` spells "true" in any case. It is on when neither is set. |
| Settings.SslFlagRule | reviewhub-backend/email_service.py:42 | SSL is on iff the first non-empty of `SMTP_USE_SSL` and `MAIL_USE_SSL` spells "true" in any case. It is off when neither is set. |
| Settings.GetenvDefaults | reviewhub-backend/email_service.py:46-51 | `FROM_NAME`, `FRONTEND_URL` and the two link bases keep a value set to "". Their defaults apply only to an unset variable. The link bases default to the frontend URL plus "/verify-email" and "/reset-password". |
| Settings.BackendSelector | reviewhub-backend/email_service.py:16 | The backend is "smtp" when unset and "" when set empty. It equals "console" exactly when the variable spells "console" in any case. |
| Messages.PlainText | reviewhub-backend/email_service.py:124-127 | The plain-text part is never empty. It is the supplied text when that is non-empty, else the fixed fallback sentence. |
| Messages.FromHeader | reviewhub-backend/email_service.py:121 | The header is the address alone when no display name is set. Otherwise it is the name plus three more characters around the address, and the address sits right after the name and " <". |
| Messages.Compose | reviewhub-backend/email_service.py:120-128 | The message carries the From header, recipient, subject and HTML part as given. Its plain-text part is the one Messages.PlainText chooses: the supplied text when non-empty, else the fallback. It is never empty. |
| Messages.FromHeaderNamesAddress | reviewhub-backend/email_service.py:121 | With a display name, the From header starts with the name and " <". Without one it is the bare address. Either way the address reads back from the header. |
| Messages.Link | reviewhub-backend/email_service.py:55 | A link is the base, then "?token=", then the token. Each piece sits at a fixed position, so the link reads back as in Messages.LinkSplits. |
| Messages.LinkSplits | reviewhub-backend/email_service.py:55 | A link is the base, "?token=" once, then the token unescaped. A token without '?' reads back from the link together with its base. |
| Messages.VerificationMessage | reviewhub-backend/email_service.py:54-72 | The verification e-mail goes to the user with the verification subject. Its HTML part is the verify page carrying the verification link. |
| Messages.ResetMessage | reviewhub-backend/email_service.py:74-92 | The reset e-mail goes to the user with the reset subject. Its HTML part is the reset page carrying the reset link. |
| Messages.WelcomeMessage | reviewhub-backend/email_service.py:94-103 | The welcome e-mail goes to the user with the welcome subject and always uses the fallback plain text. |
| Messages.VerificationMessageShape | reviewhub-backend/email_service.py:54-72 | The verification e-mail goes to the user. Its HTML links to the verification base plus "?token=" and the token. Its plain text repeats that link and is not the fallback. |
| Messages.ResetMessageShape | reviewhub-backend/email_service.py:74-92 | The reset e-mail links to the reset base plus "?token=" and the token. Its plain text repeats that link and is not the fallback. |
| Messages.WelcomeMessageShape | reviewhub-backend/email_service.py:94-103 | The welcome e-mail always carries the fallback plain text and links to the frontend URL. |
| Transport.Run | reviewhub-backend/email_service.py:130-149 | The actions run in order, and the run stops at the first one that raises. It succeeds iff every planned action succeeds, and then it has attempted the whole plan. On failure the last attempted action is the one that raised, and all before it succeeded. |
| Transport.RunFrom | reviewhub-backend/email_service.py:130-149 | The same as Run, from a given action of the plan onwards. |
| Transport.Plan | reviewhub-backend/email_service.py:131-145 | The conversation starts with one connect, SSL-wrapped iff SSL is on, and ends with the one send. EHLO follows a plain connect. STARTTLS and a second EHLO come next iff TLS is on without SSL. A login comes just before the send iff a username or password is set. Nothing else is in the plan. |
| Sender.SendEmail | reviewhub-backend/email_service.py:106-149 | The console backend succeeds with no transport action. Any other backend with an empty host fails with none. Otherwise it attempts a non-empty prefix of the plan and succeeds iff every planned action succeeds. Every attempted action but the last succeeded. A success ends by sending the composed message, and a failure ends at the action that raised. |
| Sender.SendVerificationEmail | reviewhub-backend/email_service.py:54-72 | On the console backend it succeeds with no transport action. On any other backend with no host it fails without a transport action. Otherwise it is the run of the SMTP conversation that sends the verification message, so a success ends by handing that message to the transport. |
| Sender.SendPasswordResetEmail | reviewhub-backend/email_service.py:74-92 | On the console backend it succeeds with no transport action. On any other backend with no host it fails without a transport action. Otherwise it is the run of the SMTP conversation that sends the reset message, so a success ends by handing that message to the transport. |
| Sender.SendWelcomeEmail | reviewhub-backend/email_service.py:94-103 | On the console backend it succeeds with no transport action. On any other backend with no host it fails without a transport action. Otherwise it is the run of the SMTP conversation that sends the welcome message, so a success ends by handing that message to the transport. |
| Sender.ConsoleInAnyCase | reviewhub-backend/email_service.py:107-114 | With `EMAIL_BACKEND` spelling "console" in any case, every send succeeds and attempts nothing. |
| Sender.NoHostFails | reviewhub-backend/email_service.py:116-118 | With a non-console backend and no host variable set, all three e-mails fail without a transport action. |
| Sender.StopsAtFirstFailure | reviewhub-backend/email_service.py:130-149 | When action f of the SMTP conversation is the first to raise, the send fails. It has then attempted exactly the conversation's actions up to and including f. |
| Sender.AllAnsweredDelivers | reviewhub-backend/email_service.py:130-146 | When the transport accepts every action, the send succeeds, runs the whole conversation and ends by sending the message. |
| Sender.FailedLoginNeverSends | reviewhub-backend/email_service.py:143-149 | When the server rejects the login, the send fails and the message never reaches the transport. |
| Token.AlphabetIsAlphanumeric | reviewhub-backend/email_service.py:154 | The token alphabet has 62 characters, exactly the ASCII letters and digits. |
| Token.GenerateToken | reviewhub-backend/email_service.py:152-155 | The token has exactly the requested number of characters: 32 by default, none for a negative count. Each character is an ASCII letter or digit. |
| Token.TokenLinkSplits | reviewhub-backend/email_service.py:152-155 | Any token of generated shape reads back from a link together with its base, so it needs no escaping. |

## Left out

- Network and TLS. The model does not include the mail library's connections, the default SSL context or the 30-second timeout. Each transport call is one scripted action that either succeeds or raises.
- The QUIT that closing the connection sends. A failure there also turns a send into `false`. It happens inside the mail library, after the modelled actions.
- MIME encoding (`set_content`, `add_alternative`). A message is the record of From, To, Subject, the plain text and the HTML part. Header values with line breaks, which the e-mail library rejects before the `try` block, are not modelled.
- HTML template markup. The HTML part is a datatype naming the template, the username and the embedded link. The fixed markup around them is not modelled.
- Console and error logging (`print`). On the console backend the model records only the `true` result and the absence of transport actions.
- Token randomness. The quality of the secure random choice is left out. `GenerateToken` leaves each character's choice open and proves only length and alphabet membership.
- `load_dotenv` and the module-level service instance. These are process start-up plumbing. The environment is a map parameter.
- Text.Lower: only ASCII letters are folded. Python's `str.lower` also folds other scripts. No non-ASCII character folds to a letter of "true" or "console", so the comparisons the service makes come out the same.
- Settings.ParsePort: only non-empty ASCII digit strings are numbers. Python's `int()` also accepts a sign, surrounding whitespace, underscores between digits and non-ASCII digits. The model reports those as a bad port.
