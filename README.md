# Telegram auto-acceptor bot, modelled in Dafny

The bot approves every request to join a group or channel and then sends the
new member a welcome direct message (DM). When a member leaves, it sends them
a farewell DM. This project models the logic behind that behaviour:

- **Departure classifier** (`_is_member_left`), in `membership.dfy`. It
  decides from the old and new membership status strings whether a
  chat-member update records someone leaving. A seven-value `Status`
  enumeration is the reference it is proved against.
- **Message rendering** (`_format_message`), in `formatting.dfy` and
  `messages.dfy`. A template is filled in with four keyword arguments, each
  with its fallback:
  - `first_name` and `last_name` fall back to "";
  - `username` becomes "@" plus the handle, or "";
  - `chat_title` falls back to "the chat".

  `Formatting.Format` models the part of Python's `str.format` the bot uses:
  literal text, named fields `{name}`, and the escapes `{{` and `}}`. It reads
  the template from left to right and stops at the first error.
  `Parse`/`Unparse`/`Substitute` describe the same templates structurally, and
  the lemmas connect the two views.
- **Configured templates** (`WELCOME_MESSAGE` and `FAREWELL_MESSAGE`), in
  `config.dfy`. Each template is proved to render, for every user and chat, to
  a stated text. A `Layout` value spells out each template so the proof can
  follow the template piece by piece.
- **Handlers** (`approve_join_request` and `farewell`), in `handlers.dfy`.
  Each handler is a method that drives a `Platform` object. The object records
  the actions the handler requests (`Approve`, `Send(chatId, text)`) in its
  `trace` field. Whether each action succeeds is a parameter of the method.
  - Each method's postcondition ties the new trace and the way the handler
    ends to a specification function: `Welcome` or `Goodbye`.
  - The contracts of those functions, and lemmas about them, state the
    protocol:
    - a welcome DM follows only a successful approval;
    - a failed DM is swallowed: the functions do not take the DM's outcome,
      so it changes neither the trace nor how the handler ends;
    - a farewell goes only to a departed user, as a DM to the account in the
      new membership record;
    - with the configured templates, neither handler raises.

## Model

| member | source | states |
|---|---|---|
| Membership.ParseStatus | bot.py:107-108 | a status string is one of the seven status strings the code names exactly when some `Status` value is named by it, and then that value's name is the string |
| Membership.IsMemberLeft | bot.py:102-110 | an update is a departure iff its old status names a status that held membership (member, administrator, creator, restricted) and its new status names one that does not (left, kicked, banned) |
| Membership.StatusNamesRoundTrip | bot.py:107-108 | parsing a status's name gives that status back, and distinct statuses have distinct names |
| Membership.DepartureTruthTable | bot.py:107-110 | over all 49 pairs of statuses, the update is a departure exactly when the old one is in {member, administrator, creator, restricted} and the new one is in {left, kicked, banned} |
| Membership.DepartureExamples | bot.py:107-110 | member to left is a departure; restricted to restricted and left to member are not |
| Formatting.Format | bot.py:36 | `template.format(...)` read left to right; a failure is either a misplaced brace or a field name that is not among the arguments |
| Formatting.NameLength | bot.py:36-41 | the field name at the front of a template runs up to, and never includes, the first brace |
| Formatting.Scan | bot.py:36-41 | a piece read from the front of a template spans a non-empty prefix that is exactly that piece's template text, and a field it reads has a brace-free name |
| Formatting.Substitute | bot.py:36-41 | filling in pieces succeeds iff every field is bound, and a failure names a field of the template that has no argument |
| Formatting.ParseUnparse | bot.py:36-41 | parsing the text of any well-formed piece sequence gives that sequence back |
| Formatting.UnparseParse | bot.py:36-41 | a template that parses is exactly the text of its pieces, and those pieces are well formed |
| Formatting.FormatIsSubstitution | bot.py:36-41 | left-to-right formatting of a template equals substituting into its parsed pieces, and fails whenever the template does not parse |
| Formatting.FormatBraceFree | bot.py:36-41 | a template without braces formats to itself |
| Formatting.FormatAppend | bot.py:36-41 | formatting a concatenation whose first part formats equals that part's rendering followed by the rendering of the rest, failures included |
| Formatting.FormatField | bot.py:36-41 | a lone `{name}` formats to the argument for `name`, or fails naming `name` when there is none |
| Messages.Mention | bot.py:39 | the username argument is empty exactly when the user has no non-empty username, and otherwise is "@" followed by that username |
| Messages.Arguments | bot.py:36-40 | exactly the four keywords first_name, last_name, username and chat_title are supplied; the chat_title argument is never empty, and the username argument is empty or begins with "@" |
| Messages.FormatMessage | bot.py:34-41 | `_format_message` renders the template with those four arguments (built with `OrElse`, `Mention` and `Arguments`, whose fallbacks the four lemmas below characterise); it succeeds iff the template parses and every field in it is one of the four names |
| Messages.FirstNameFallback | bot.py:37 | `{first_name}` renders as the first name, or as "" when there is none |
| Messages.LastNameFallback | bot.py:38 | `{last_name}` renders as the last name, or as "" when there is none |
| Messages.UsernameFallback | bot.py:39 | `{username}` renders as "@" plus the username when it is non-empty, and as "" otherwise |
| Messages.ChatTitleFallback | bot.py:40 | `{chat_title}` renders as the title when it is non-empty, and as "the chat" when it is absent or empty |
| Messages.UnknownPlaceholderFails | bot.py:36-41 | a placeholder whose text between the braces is not one of the four names makes rendering fail, naming that text |
| Messages.BraceFreeTemplateUnchanged | bot.py:36-41 | a template without braces renders unchanged for every user and chat |
| Messages.FormatLayout | bot.py:36-41 | a template made of brace-free text runs and bound placeholders renders as the text with each placeholder replaced by its argument |
| Messages.WorkedExample | bot.py:34-41 | "Hi {first_name} ({username}) welcome to {chat_title}" renders for Ana, handle ana99, in "Test Room" as "Hi Ana (@ana99) welcome to Test Room" |
| Config.WelcomeRenders | config.py:27-31 | the welcome template renders for every user and chat, with the first name (or "") and the chat title (or "the chat") filled in |
| Config.FarewellRenders | config.py:42-45 | the farewell template renders for every user and chat, with the first name (or "") and the chat title (or "the chat") filled in |
| Handlers.Welcome | bot.py:60-96 | the approval is the first action and happens once; at most one DM follows, to the requester's id and only after a successful approval, and a formatting error can only escape after a successful approval |
| Handlers.Goodbye | bot.py:113-145 | no action and no error unless the update exists and records a departure; then at most one DM, to the id of the user in the new membership |
| Handlers.Platform.constructor | bot.py:60-96 | a new platform has performed no action |
| Handlers.Platform.ApproveRequest | bot.py:67-68 | approving a request appends one `Approve(chat id, user id)` to the trace and reports the given outcome |
| Handlers.Platform.SendMessage | bot.py:82-86 | sending a message appends one `Send(chat id, text)` to the trace and reports the given outcome |
| Handlers.ApproveJoinRequest | bot.py:60-96 | the trace grows by exactly the actions of `Welcome`, and the handler ends as `Welcome` says, so the outcome of the welcome DM changes neither |
| Handlers.Farewell | bot.py:113-145 | the trace grows by exactly the actions of `Goodbye`, and the handler ends as `Goodbye` says, so the outcome of the farewell DM changes neither |
| Handlers.FailedApprovalStops | bot.py:67-77 | after a failed approval the only action is that approval, and the handler returns without attempting a DM |
| Handlers.ApprovedRequesterIsWelcomed | bot.py:80-96 | after a successful approval, a renderable welcome is sent exactly once to the requester's own id, and the handler returns |
| Handlers.NoFarewellWithoutDeparture | bot.py:115-120 | a missing update, or one that is not a departure, leads to no action and a normal return |
| Handlers.DepartedUserIsMessaged | bot.py:122-145 | a departure leads to exactly one DM, to the id of the user in the new membership, rendered for that user and the chat, and the handler returns |
| Handlers.ConfiguredWelcome | bot.py:80-96 | with the configured welcome template the handler never raises, and an approved requester is sent the welcome text with their first name and the chat title |
| Handlers.ConfiguredFarewell | bot.py:122-145 | with the configured farewell template the handler never raises, and a departed user is sent the farewell text with their first name and the chat title |

## Left out

- Logging setup and every `logger` call: these only write to the log.
- `start_command`: a fixed reply through the Telegram API, with no logic.
- `main`: handler registration, the application builder, polling, and the
  check for an unset bot token.
- Loading configuration from the environment (`dotenv`, `BOT_TOKEN`,
  `LOG_LEVEL`). The two message templates appear as constants, and the
  handlers take their template as a parameter.
- Asynchrony, the exception types of the Telegram library, and HTML
  `parse_mode`. Whether an action succeeds is a boolean supplied by the
  caller, and a failed call raises nothing beyond it.
- Features of `str.format` the templates do not use:
  - format specifications (`{x:>10}`);
  - conversions (`{x!r}`);
  - attribute and index access (`{x.y}`, `{x[0]}`);
  - positional fields.

  Python renders such a field: `{first_name:>10}`, `{first_name!r}` and
  `{chat_title[0]}` all succeed. The model reads everything between the braces
  as the field name, so it fails with `UnknownField("first_name!r")`, say.
- Formatting.Format: fails on format specifications, conversions and
  attribute or index access, which Python renders (see the line above).
  `Messages.UnknownPlaceholderFails` and `Messages.FormatMessage` speak of the
  model's field names, that is, the whole text between the braces, not of
  Python's.
- The handlers render the message outside their `try` blocks, so a
  formatting error escapes the handler. The model records this as
  `Raised(error)` rather than dropping it. `ConfiguredWelcome` and
  `ConfiguredFarewell` show it cannot happen with the shipped templates.
- The module docstring (bot.py:5) and the comment above the farewell
  template (config.py:35) say the farewell is posted in the group. The code
  sends it as a DM to the departed user (bot.py:127-131). The model follows
  the code.
- The code treats "creator" as a membership status, the Telegram name for
  what is elsewhere called the owner, and also treats "banned" as gone. The
  model uses the code's strings.
