/**
 * The command registry of telegram/bot.go and the usage messages built
 * from it.
 */
module TelegramBot {
  import opened Text

  datatype CommandInfo = CommandInfo(Command: string, Description: string, Usage: string, Example: string)

  const Registry: map<string, CommandInfo> := map[
    "help" := CommandInfo("/help", "Show this help message with all available commands", "/help", "/help"),
    "status" := CommandInfo("/status", "Get current printer status and information", "/status", "/status"),
    "preview" := CommandInfo("/preview", "Generate a preview image of your label before printing",
                             "/preview <text>", "/preview Kitchen Labels"),
    "size" := CommandInfo("/size", "Print a label with custom font size",
                          "/size <font_size> <text>", "/size 32 My Custom Label"),
    "preset" := CommandInfo("/preset", "Print a label using a predefined preset with specific font settings",
                            "/preset [preset_name] [text] | /preset (to list presets)", "/preset kitchen Container A"),
    "ppreview" := CommandInfo("/ppreview", "Generate a preview image using a predefined preset",
                              "/ppreview [preset_name] [text] | /ppreview (to list presets)",
                              "/ppreview kitchen Container A")
  ]

  /** The entry for plain text messages, listed after the registered commands. */
  const TextMessageInfo: CommandInfo := CommandInfo("Text Message",
    "Send any text message (not starting with /) to print it with default settings",
    "Just type your text", "Hello World")

  /** The commands GetBot registers a handler for, in registration order. */
  const HandlerCommands: seq<string> := ["help", "status", "preview", "size", "preset", "ppreview"]

  /** The registry's keys are exactly the six command names. */
  lemma RegistryKeys()
    ensures Registry.Keys == {"help", "status", "preview", "size", "preset", "ppreview"}
  {
  }

  /** The six names are distinct, so the registry has six entries. */
  lemma RegistrySize()
    ensures |Registry| == 6
  {
    RegistryKeys();
    var keys := {"help", "status", "preview", "size", "preset", "ppreview"};
    assert "help"[0] != "size"[0] && "status"[1] != "preset"[1];
    assert |keys| == 6 by {
      assert keys == {"help", "size"} + {"status", "preset"} + {"preview"} + {"ppreview"};
    }
  }

  /**
   * GetRegisteredCommands: the registry's entries in the map's (unspecified)
   * iteration order, then the text-message entry; every entry appears once.
   */
  method GetRegisteredCommands() returns (commands: seq<CommandInfo>)
    ensures |commands| == |Registry| + 1
    ensures commands[|commands| - 1] == TextMessageInfo
    ensures forall k :: k in Registry ==> Registry[k] in commands[..|Registry|]
    ensures forall i :: 0 <= i < |Registry| ==> commands[i] in Registry.Values
  {
    commands := [];
    var remaining := Registry.Keys;
    while remaining != {}
      invariant remaining <= Registry.Keys
      invariant |commands| + |remaining| == |Registry.Keys|
      invariant forall k :: k in Registry && k !in remaining ==> Registry[k] in commands
      invariant forall i :: 0 <= i < |commands| ==> commands[i] in Registry.Values
      decreases remaining
    {
      var k :| k in remaining;
      commands := commands + [Registry[k]];
      remaining := remaining - {k};
    }
    assert |commands| == |Registry|;
    commands := commands + [TextMessageInfo];
    assert commands[..|Registry|] == commands[..|commands| - 1];
  }

  /** The start of the message for a command that has no registry entry. */
  const UnavailableHead: string := "Usage information"

  /** The message for a command that has no registry entry. */
  function UnavailableMessage(command: string): string {
    UnavailableHead + " not available for /" + command
  }

  /** GetCommandUsageMessage: the entry's usage, example and description, or the fallback. */
  function GetCommandUsageMessage(command: string): (msg: string)
    ensures command in Registry ==> msg == EntryUsage(Registry[command])
    ensures command !in Registry ==> msg == "❌ " + UnavailableMessage(command)
  {
    if command in Registry then EntryUsage(Registry[command])
    else "❌ " + UnavailableMessage(command)
  }

  /** The details of a registry entry as GetCommandUsageMessageWithError lays them out. */
  function EntryDetails(info: CommandInfo): string {
    "Usage: " + info.Usage + "\nExample: " + info.Example + "\n\n" + info.Description
  }

  /** The part of GetCommandUsageMessageWithError that follows the error. */
  function UsageDetails(command: string): string {
    if command in Registry then EntryDetails(Registry[command]) else UnavailableMessage(command)
  }

  /** GetCommandUsageMessageWithError: the error first, then the same fields or the same fallback. */
  function GetCommandUsageMessageWithError(command: string, errorMsg: string): (msg: string)
    ensures HasPrefix(msg, "❌ " + errorMsg + "\n\n")
    ensures msg[|"❌ " + errorMsg + "\n\n"|..] == UsageDetails(command)
  {
    var prefix := "❌ " + errorMsg + "\n\n";
    var msg := prefix + UsageDetails(command);
    assert msg[..|prefix|] == prefix;
    msg
  }

  /** The usage text of a registry entry. */
  function EntryUsage(info: CommandInfo): string {
    "❌ Usage: " + info.Usage + "\n\nExample: " + info.Example + "\n\n" + info.Description
  }

  /** The usage message falls back exactly for unregistered commands. */
  lemma UsageMessageFallbackIff(command: string)
    ensures HasPrefix(GetCommandUsageMessage(command), "❌ " + UnavailableHead) <==> command !in Registry
  {
    if command in Registry {
      EntryUsageIsNotFallback(Registry[command]);
    } else {
      UnregisteredUsageFallsBack(command);
    }
  }

  /** An unregistered command gets the fallback text. */
  lemma UnregisteredUsageFallsBack(command: string)
    requires command !in Registry
    ensures HasPrefix(GetCommandUsageMessage(command), "❌ " + UnavailableHead)
  {
    FallbackPrefix("❌ ", " not available for /" + command, UnavailableHead);
  }

  /** An entry's usage text is never mistaken for the fallback. */
  lemma EntryUsageIsNotFallback(info: CommandInfo)
    ensures !HasPrefix(EntryUsage(info), "❌ " + UnavailableHead)
  {
    var u := EntryUsage(info);
    assert u == "❌ Usage: " + (info.Usage + "\n\nExample: " + info.Example + "\n\n" + info.Description);
    assert u[7] == ':';
  }

  /** The same for the layout that follows an error. */
  lemma EntryDetailsIsNotFallback(info: CommandInfo)
    ensures !HasPrefix(EntryDetails(info), UnavailableHead)
  {
    var d := EntryDetails(info);
    assert d == "Usage: " + (info.Usage + "\nExample: " + info.Example + "\n\n" + info.Description);
    assert d[5] == ':';
  }

  /** Text placed after a prefix keeps that prefix. */
  lemma FallbackPrefix(lead: string, tail: string, head: string)
    ensures HasPrefix(lead + head + tail, lead + head)
  {
    assert (lead + head + tail)[..|lead + head|] == lead + head;
  }

  /** The same holds after the error of GetCommandUsageMessageWithError. */
  lemma UsageDetailsFallbackIff(command: string)
    ensures HasPrefix(UsageDetails(command), UnavailableHead) <==> command !in Registry
  {
    if command in Registry {
      assert UsageDetails(command) == EntryDetails(Registry[command]);
      EntryDetailsIsNotFallback(Registry[command]);
    } else {
      FallbackPrefix("", " not available for /" + command, UnavailableHead);
    }
  }

  /** registerCommandHandler warns about a command missing from the registry. */
  predicate RegistrationWarns(command: string) {
    command !in Registry
  }

  /**
   * Every command GetBot registers is in the registry, so its warning is
   * never logged, and every registry entry has a handler.
   */
  lemma HandlersMatchRegistry()
    ensures forall i :: 0 <= i < |HandlerCommands| ==> !RegistrationWarns(HandlerCommands[i])
    ensures forall k :: k in Registry ==> k in HandlerCommands
  {
    RegistryKeys();
  }
}
