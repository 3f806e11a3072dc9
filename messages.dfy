/** `_format_message`: a template rendered with the four fields of a user and
    a chat, and the two templates the bot is configured with. */
module Messages {
  import opened Wrappers
  import opened Entities
  import opened Formatting

  /** The only names a template may use. */
  const FieldNames: set<string> := {"first_name", "last_name", "username", "chat_title"}

  /** What `{chat_title}` becomes for a chat without a title. */
  const UntitledChat: string := "the chat"

  /** Python's `value or fallback` on an optional string: None and "" are falsy. */
  function OrElse(value: Option<string>, fallback: string): string {
    if value.Some? && value.value != "" then value.value else fallback
  }

  /** `@handle` for a user with a username, else "". */
  function Mention(user: User): (r: string)
    ensures r == "" <==> user.username.None? || user.username.value == ""
    ensures r != "" ==> r[0] == '@' && r[1..] == user.username.value
  {
    if user.username.Some? && user.username.value != "" then "@" + user.username.value else ""
  }

  /** The keyword arguments `_format_message` hands to `str.format`. */
  function Arguments(user: User, chat: Chat): (args: map<string, string>)
    ensures args.Keys == FieldNames
    ensures args["first_name"] == OrElse(user.firstName, "")
    ensures args["last_name"] == OrElse(user.lastName, "")
    ensures args["username"] == Mention(user)
    ensures args["chat_title"] == OrElse(chat.title, UntitledChat)
    ensures args["chat_title"] != ""
    ensures args["username"] == "" || args["username"][0] == '@'
  {
    map["first_name" := OrElse(user.firstName, ""),
        "last_name" := OrElse(user.lastName, ""),
        "username" := Mention(user),
        "chat_title" := OrElse(chat.title, UntitledChat)]
  }

  /** `_format_message(template, user, chat)`: it fails exactly when the
      template is malformed or uses a name other than the four keywords. */
  function FormatMessage(template: string, user: User, chat: Chat): (r: Result<string, FormatError>)
    ensures r.Success? <==>
      Parse(template).Success? &&
      forall i :: 0 <= i < |Parse(template).value| && Parse(template).value[i].Field? ==>
        Parse(template).value[i].name in FieldNames
  {
    FormatIsSubstitution(template, Arguments(user, chat));
    Format(template, Arguments(user, chat))
  }

  /** A missing first name renders as "", never as the text "None". */
  lemma FirstNameFallback(user: User, chat: Chat)
    ensures FormatMessage("{first_name}", user, chat)
         == Success(if user.firstName.Some? then user.firstName.value else "")
  {
    assert "{first_name}" == "{" + "first_name" + "}";
    FormatField("first_name", Arguments(user, chat));
  }

  /** A missing last name renders as "", never as the text "None". */
  lemma LastNameFallback(user: User, chat: Chat)
    ensures FormatMessage("{last_name}", user, chat)
         == Success(if user.lastName.Some? then user.lastName.value else "")
  {
    assert "{last_name}" == "{" + "last_name" + "}";
    FormatField("last_name", Arguments(user, chat));
  }

  /** The username gains an "@" when the user has one and renders as ""
      otherwise. */
  lemma UsernameFallback(user: User, chat: Chat)
    ensures FormatMessage("{username}", user, chat)
         == Success(if user.username.Some? && user.username.value != "" then "@" + user.username.value else "")
  {
    assert "{username}" == "{" + "username" + "}";
    FormatField("username", Arguments(user, chat));
  }

  /** An absent or empty title renders as "the chat". */
  lemma ChatTitleFallback(user: User, chat: Chat)
    ensures FormatMessage("{chat_title}", user, chat)
         == Success(if chat.title.Some? && chat.title.value != "" then chat.title.value else "the chat")
  {
    assert "{chat_title}" == "{" + "chat_title" + "}";
    FormatField("chat_title", Arguments(user, chat));
  }

  /** A placeholder outside the four supported names makes rendering fail,
      naming the placeholder. */
  lemma UnknownPlaceholderFails(name: string, user: User, chat: Chat)
    requires BraceFree(name) && name !in FieldNames
    ensures FormatMessage("{" + name + "}", user, chat) == Failure(UnknownField(name))
  {
    FormatField(name, Arguments(user, chat));
  }

  /** A template without braces is sent as it is. */
  lemma BraceFreeTemplateUnchanged(template: string, user: User, chat: Chat)
    requires BraceFree(template)
    ensures FormatMessage(template, user, chat) == Success(template)
  {
    FormatBraceFree(template, Arguments(user, chat));
  }

  /** How a concrete template is written down: runs of brace-free text and
      placeholders, from left to right. */
  datatype Layout =
    | Opening(text: string)
    | Text(init: Layout, text: string)
    | Placeholder(init: Layout, name: string)

  /** The template text a layout spells out. */
  function Spell(l: Layout): string {
    match l
    case Opening(s) => s
    case Text(init, s) => Spell(init) + s
    case Placeholder(init, name) => Spell(init) + ("{" + name + "}")
  }

  /** Every text run and every placeholder name is brace-free. */
  predicate PlainLayout(l: Layout) {
    match l
    case Opening(s) => BraceFree(s)
    case Text(init, s) => PlainLayout(init) && BraceFree(s)
    case Placeholder(init, name) => PlainLayout(init) && BraceFree(name)
  }

  function Placeholders(l: Layout): set<string> {
    match l
    case Opening(_) => {}
    case Text(init, _) => Placeholders(init)
    case Placeholder(init, name) => Placeholders(init) + {name}
  }

  /** The layout with each placeholder replaced by its argument (a placeholder
      without one is dropped; `FormatLayout` rules that case out). */
  function Fill(l: Layout, args: map<string, string>): string {
    match l
    case Opening(s) => s
    case Text(init, s) => Fill(init, args) + s
    case Placeholder(init, name) => Fill(init, args) + (if name in args then args[name] else "")
  }

  /** A plain layout whose placeholders all have arguments renders as its fill. */
  lemma {:induction false} FormatLayout(l: Layout, args: map<string, string>)
    requires PlainLayout(l) && Placeholders(l) <= args.Keys
    ensures Format(Spell(l), args) == Success(Fill(l, args))
  {
    match l
    case Opening(s) =>
      FormatBraceFree(s, args);
    case Text(init, s) =>
      FormatLayout(init, args);
      FormatBraceFree(s, args);
      FormatAppend(Spell(init), s, args);
    case Placeholder(init, name) =>
      FormatLayout(init, args);
      FormatField(name, args);
      FormatAppend(Spell(init), "{" + name + "}", args);
  }

  /** The worked example: Ana, handle ana99, in "Test Room". */
  lemma WorkedExample(user: User, chat: Chat)
    requires user.firstName == Some("Ana") && user.username == Some("ana99")
    requires chat.title == Some("Test Room")
    ensures FormatMessage("Hi " + "{first_name}" + " (" + "{username}" + ") welcome to " + "{chat_title}", user, chat)
         == Success("Hi " + "Ana" + " (" + "@ana99" + ") welcome to " + "Test Room")
  {
    var args := Arguments(user, chat);
    var l1 := Placeholder(Opening("Hi "), "first_name");
    var l2 := Text(l1, " (");
    var l3 := Placeholder(l2, "username");
    var l4 := Text(l3, ") welcome to ");
    var l5 := Placeholder(l4, "chat_title");
    assert PlainLayout(l5);
    assert Placeholders(l5) == {"first_name", "username", "chat_title"};
    FormatLayout(l5, args);
    assert "{first_name}" == "{" + "first_name" + "}";
    assert "{username}" == "{" + "username" + "}";
    assert "{chat_title}" == "{" + "chat_title" + "}";
    assert args["username"] == "@ana99" by {
      assert "@" + "ana99" == "@ana99";
    }
    assert args["first_name"] == "Ana";
    assert Fill(l1, args) == "Hi " + "Ana";
    assert Fill(l2, args) == "Hi " + "Ana" + " (";
    assert Fill(l4, args) == Fill(l2, args) + "@ana99" + ") welcome to ";
    assert Spell(l2) == "Hi " + "{first_name}" + " (";
    assert Spell(l4) == Spell(l2) + "{username}" + ") welcome to ";
  }
}
