/** The two templates of config.py, and the proof that each renders for every
    user and chat, so that neither can make a handler raise. */
module Config {
  import opened Wrappers
  import opened Entities
  import opened Formatting
  import opened Messages

  /** `WELCOME_MESSAGE`, sent as a DM after a join request is approved. */
  const WelcomeMessage: string :=
    "\U{1F389} <b>Welcome, " + "{first_name}" + "!</b>\n\n"
    + "Your request to join <b>" + "{chat_title}" + "</b> has been approved.\n"
    + "We're glad to have you here! " + "Feel free to explore and enjoy. \U{1F680}"

  /** `FAREWELL_MESSAGE`, sent as a DM after a member leaves. */
  const FarewellMessage: string :=
    "\U{1F44B} <b>" + "{first_name}" + "</b> has left <b>" + "{chat_title}" + "</b>.\n"
    + "We'll miss you! " + "Goodbye and take care. \U{1F499}"

  /** `WelcomeMessage` written as text runs and placeholders. */
  const WelcomeHead: Layout :=
    Text(Text(Placeholder(Opening("\U{1F389} <b>Welcome, "), "first_name"), "!</b>\n\n"), "Your request to join <b>")
  const WelcomeLayout: Layout :=
    Text(Text(Text(Placeholder(WelcomeHead, "chat_title"), "</b> has been approved.\n"),
      "We're glad to have you here! "), "Feel free to explore and enjoy. \U{1F680}")

  /** `FarewellMessage` written as text runs and placeholders. */
  const FarewellHead: Layout :=
    Text(Placeholder(Opening("\U{1F44B} <b>"), "first_name"), "</b> has left <b>")
  const FarewellLayout: Layout :=
    Text(Text(Text(Placeholder(FarewellHead, "chat_title"), "</b>.\n"), "We'll miss you! "),
      "Goodbye and take care. \U{1F499}")

  lemma WelcomeLayoutSpells()
    ensures Spell(WelcomeLayout) == WelcomeMessage
    ensures PlainLayout(WelcomeLayout) && Placeholders(WelcomeLayout) == {"first_name", "chat_title"}
  {
    assert "{first_name}" == "{" + "first_name" + "}";
    assert "{chat_title}" == "{" + "chat_title" + "}";
    assert Spell(WelcomeHead) == "\U{1F389} <b>Welcome, " + "{first_name}" + "!</b>\n\n" + "Your request to join <b>";
    assert PlainLayout(WelcomeHead);
  }

  lemma FarewellLayoutSpells()
    ensures Spell(FarewellLayout) == FarewellMessage
    ensures PlainLayout(FarewellLayout) && Placeholders(FarewellLayout) == {"first_name", "chat_title"}
  {
    assert "{first_name}" == "{" + "first_name" + "}";
    assert "{chat_title}" == "{" + "chat_title" + "}";
    assert Spell(FarewellHead) == "\U{1F44B} <b>" + "{first_name}" + "</b> has left <b>";
    assert PlainLayout(FarewellHead);
  }

  /** The welcome DM greets the user by first name (or "") and names the chat
      (or "the chat"). */
  lemma WelcomeRenders(user: User, chat: Chat)
    ensures FormatMessage(WelcomeMessage, user, chat) == Success(
      "\U{1F389} <b>Welcome, " + OrElse(user.firstName, "") + "!</b>\n\n"
      + "Your request to join <b>" + OrElse(chat.title, UntitledChat) + "</b> has been approved.\n"
      + "We're glad to have you here! " + "Feel free to explore and enjoy. \U{1F680}")
  {
    var args := Arguments(user, chat);
    var first, title := OrElse(user.firstName, ""), OrElse(chat.title, UntitledChat);
    assert args["first_name"] == first && args["chat_title"] == title;
    WelcomeLayoutSpells();
    FormatLayout(WelcomeLayout, args);
    var opening := Opening("\U{1F389} <b>Welcome, ");
    assert WelcomeHead == Text(Text(Placeholder(opening, "first_name"), "!</b>\n\n"), "Your request to join <b>");
    assert Fill(Placeholder(opening, "first_name"), args) == "\U{1F389} <b>Welcome, " + first;
    assert Fill(WelcomeHead, args) == "\U{1F389} <b>Welcome, " + first + "!</b>\n\n" + "Your request to join <b>";
    var tail := Placeholder(WelcomeHead, "chat_title");
    assert WelcomeLayout == Text(Text(Text(tail, "</b> has been approved.\n"),
      "We're glad to have you here! "), "Feel free to explore and enjoy. \U{1F680}");
    assert Fill(tail, args) == Fill(WelcomeHead, args) + title;
    var approved := Text(tail, "</b> has been approved.\n");
    assert Fill(approved, args) == Fill(tail, args) + "</b> has been approved.\n";
  }

  /** The farewell DM names the departed user by first name (or "") and the
      chat they left (or "the chat"). */
  lemma FarewellRenders(user: User, chat: Chat)
    ensures FormatMessage(FarewellMessage, user, chat) == Success(
      "\U{1F44B} <b>" + OrElse(user.firstName, "") + "</b> has left <b>" + OrElse(chat.title, UntitledChat) + "</b>.\n"
      + "We'll miss you! " + "Goodbye and take care. \U{1F499}")
  {
    var args := Arguments(user, chat);
    var first, title := OrElse(user.firstName, ""), OrElse(chat.title, UntitledChat);
    assert args["first_name"] == first && args["chat_title"] == title;
    FarewellLayoutSpells();
    FormatLayout(FarewellLayout, args);
    var opening := Opening("\U{1F44B} <b>");
    assert FarewellHead == Text(Placeholder(opening, "first_name"), "</b> has left <b>");
    assert Fill(Placeholder(opening, "first_name"), args) == "\U{1F44B} <b>" + first;
    assert Fill(FarewellHead, args) == "\U{1F44B} <b>" + first + "</b> has left <b>";
    var tail := Placeholder(FarewellHead, "chat_title");
    assert FarewellLayout == Text(Text(Text(tail, "</b>.\n"), "We'll miss you! "), "Goodbye and take care. \U{1F499}");
    assert Fill(tail, args) == Fill(FarewellHead, args) + title;
    var closed := Text(tail, "</b>.\n");
    assert Fill(closed, args) == Fill(tail, args) + "</b>.\n";
  }
}
