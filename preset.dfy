/**
 * The /preset command of telegram/handler_preset.go: the guards on the
 * update, the split of the trimmed text into at most three pieces, the
 * lookup of the preset by name, the success and failure replies, and the two
 * listings of the configured presets (sendPresetUsage, sendPresetNotFound).
 *
 * The configured presets are a map from name to preset (GetPreset answers
 * nil exactly for a name not in it) and a sequence of names in the order
 * GetPresetNames returns them.
 */
module TelegramPreset {
  import opened Wrappers
  import opened Text
  import opened Numbers
  import opened Config
  import opened TelegramUpdates

  /** What the handler does: nothing, list the presets, answer with a text, report an unknown name, or print. */
  datatype PresetOutcome =
    | Ignored
    | ListPresets
    | Replied(reply: string)
    | NotFound(name: string)
    | Printing(name: string, text: string, preset: Preset)

  const PresetUsage: string := "❌ Usage: /preset <preset_name> <text_to_print>\n\nExample: /preset kitchen my text"
  const NoPresets: string := "❌ No presets are configured."
  const ListingHeader: string := "📋 Available presets:\n\n"
  const ListingFooter: string := "\n💡 Usage: `/preset <preset_name> <text_to_print>`\n" + "Example: `/preset kitchen my text`"
  const NotFoundListingHeader: string := "📋 Available presets:\n"

  /** The checks of presetHandler after the guards: pieces of the trimmed text, then the lookup. */
  function ParsePreset(text: string, presets: map<string, Preset>): (o: PresetOutcome)
    ensures !o.Ignored?
    ensures o.Printing? ==> o.name in presets && o.preset == presets[o.name]
    ensures o.NotFound? ==> o.name !in presets
  {
    var parts := SplitN(TrimSpace(text), ' ', 3);
    if |parts| < 2 then ListPresets
    else if |parts| < 3 then Replied(PresetUsage)
    else
      var name := parts[1];
      if name !in presets then NotFound(name)
      else Printing(name, parts[2], presets[name])
  }

  /** presetHandler: an update without a message, text or sender is dropped; otherwise ParsePreset decides. */
  function PresetHandler(update: Update, presets: map<string, Preset>): PresetOutcome {
    match update.message
    case None => Ignored
    case Some(m) =>
      if m.text == "" || m.from.None? then Ignored else ParsePreset(m.text, presets)
  }

  /** The font part of the success reply: the size, and the family only when there is one. */
  function FontInfo(preset: Preset): string {
    "📏 Font size: " + FormatInt(preset.FontSize) +
    (if preset.FontFamily != "" then ", Font: " + preset.FontFamily else "")
  }

  /**
   * The reply once PrintLabelWithPreset has returned: its error's text, or
   * the success message. The leading mark is a literal of its own so that
   * the verifier can read the first character of each reply.
   */
  function PresetReply(name: string, preset: Preset, printError: Option<string>): string {
    match printError
    case Some(e) => "❌" + " Failed to print label with preset '" + name + "': " + e
    case None => "✅" + " Label printed successfully using preset '" + name + "'!\n" + FontInfo(preset)
  }

  /** One line of a listing; the usage listing adds the font, the not-found listing does not. */
  function ListingLine(name: string, preset: Preset, withFont: bool): string {
    if withFont then
      var fontInfo := "font size: " + FormatInt(preset.FontSize) +
        (if preset.FontFamily != "" then ", font: " + preset.FontFamily else "");
      "• **" + name + "** - " + preset.Description + " (" + fontInfo + ")\n"
    else "• **" + name + "** - " + preset.Description + "\n"
  }

  /** The line of one name, or nothing for a name that has no preset. */
  function EntryOf(presets: map<string, Preset>, withFont: bool): string -> string {
    name => if name in presets then ListingLine(name, presets[name], withFont) else ""
  }

  /** The lines `line` gives the names, in the order of the names. */
  function Lines(names: seq<string>, line: string -> string): string
    decreases |names|
  {
    if |names| == 0 then ""
    else Lines(names[..|names| - 1], line) + line(names[|names| - 1])
  }

  /** The lines for `names`, in order, skipping the names that have no preset. */
  function Listing(names: seq<string>, presets: map<string, Preset>, withFont: bool): string {
    Lines(names, EntryOf(presets, withFont))
  }

  /** sendPresetUsage's message. */
  function UsageMessage(names: seq<string>, presets: map<string, Preset>): string {
    if |names| == 0 then NoPresets
    else ListingHeader + Listing(names, presets, true) + ListingFooter
  }

  /** sendPresetNotFound's message. */
  function NotFoundMessage(name: string, names: seq<string>, presets: map<string, Preset>): string {
    "❌ Preset '" + name + "' not found.\n\n" +
    (if |names| > 0 then NotFoundListingHeader + Listing(names, presets, false) else "")
  }

  /** A message built by appending keeps its head in front of the listing so far. */
  lemma Regroup(head: string, listing: string, line: string)
    ensures (head + listing) + line == head + (listing + line)
  {
  }

  /** sendPresetUsage: the message built by appending line after line. */
  method BuildPresetUsage(names: seq<string>, presets: map<string, Preset>) returns (message: string)
    ensures message == UsageMessage(names, presets)
  {
    if |names| == 0 {
      return NoPresets;
    }
    message := ListingHeader;
    for i := 0 to |names|
      invariant message == ListingHeader + Listing(names[..i], presets, true)
    {
      ListingStep(names, i, presets, true);
      var name := names[i];
      if name in presets {
        var line := ListingLine(name, presets[name], true);
        Regroup(ListingHeader, Listing(names[..i], presets, true), line);
        message := message + line;
      }
    }
    assert names[..|names|] == names;
    message := message + ListingFooter;
  }

  /** sendPresetNotFound: the same walk over the names, with the shorter lines. */
  method BuildPresetNotFound(name: string, names: seq<string>, presets: map<string, Preset>) returns (message: string)
    ensures message == NotFoundMessage(name, names, presets)
  {
    message := "❌ Preset '" + name + "' not found.\n\n";
    if |names| > 0 {
      message := message + NotFoundListingHeader;
      for i := 0 to |names|
        invariant message == "❌ Preset '" + name + "' not found.\n\n" + NotFoundListingHeader + Listing(names[..i], presets, false)
      {
        ListingStep(names, i, presets, false);
        var n := names[i];
        if n in presets {
          var line := ListingLine(n, presets[n], false);
          Regroup("❌ Preset '" + name + "' not found.\n\n" + NotFoundListingHeader, Listing(names[..i], presets, false), line);
          message := message + line;
        }
      }
      assert names[..|names|] == names;
    }
  }

  /** The handler stays silent exactly for an update without message, text or sender. */
  lemma PresetIgnoredIff(update: Update, presets: map<string, Preset>)
    ensures PresetHandler(update, presets).Ignored? <==>
      update.message.None? || update.message.value.text == "" || update.message.value.from.None?
  {
  }

  /** The presets are listed exactly when the trimmed text has no space, that is, only the command. */
  lemma PresetListIff(text: string, presets: map<string, Preset>)
    ensures ParsePreset(text, presets) == ListPresets <==> ' ' !in TrimSpace(text)
  {
    SplitNSingle(TrimSpace(text), ' ', 3);
  }

  /**
   * A preset is used exactly when the trimmed text is a command, a space, a
   * configured name, a space and the rest; the rest is printed as it is,
   * inner spaces included, with that name's preset.
   */
  lemma PresetPrintIff(text: string, presets: map<string, Preset>, name: string, toPrint: string)
    ensures (name in presets && ParsePreset(text, presets) == Printing(name, toPrint, presets[name])) <==>
      exists command ::
        && ' ' !in command && ' ' !in name
        && TrimSpace(text) == command + " " + name + " " + toPrint
        && name in presets
  {
    PiecesPrintIff(TrimSpace(text), name, toPrint);
  }

  /** The trimmed text has three pieces, the second `name` and the third `toPrint`, exactly when it reads command, name, rest. */
  lemma PiecesPrintIff(t: string, name: string, toPrint: string)
    ensures var parts := SplitN(t, ' ', 3);
      (|parts| == 3 && parts[1] == name && parts[2] == toPrint) <==>
      exists command :: ' ' !in command && ' ' !in name && t == command + " " + name + " " + toPrint
  {
    var parts := SplitN(t, ' ', 3);
    if |parts| == 3 {
      PresetPieces(t, parts);
    }
    if exists command :: ' ' !in command && ' ' !in name && t == command + " " + name + " " + toPrint {
      var command :| ' ' !in command && ' ' !in name && t == command + " " + name + " " + toPrint;
      SplitPresetText(command, name, toPrint);
    }
  }

  /** An unknown name in the second place is reported, whatever follows it, and nothing is printed. */
  lemma PresetNotFoundIff(text: string, presets: map<string, Preset>, name: string)
    ensures ParsePreset(text, presets) == NotFound(name) <==>
      exists command, rest ::
        && ' ' !in command && ' ' !in name
        && TrimSpace(text) == command + " " + name + " " + rest
        && name !in presets
  {
    var t := TrimSpace(text);
    var parts := SplitN(t, ' ', 3);
    assert ParsePreset(text, presets) == NotFound(name) <==> |parts| == 3 && parts[1] == name && name !in presets;
    PiecesSecondIff(t, name);
  }

  /** The trimmed text has three pieces, the second `name`, exactly when it reads command, name, rest. */
  lemma PiecesSecondIff(t: string, name: string)
    ensures var parts := SplitN(t, ' ', 3);
      (|parts| == 3 && parts[1] == name) <==>
      exists command, rest :: ' ' !in command && ' ' !in name && t == command + " " + name + " " + rest
  {
    var parts := SplitN(t, ' ', 3);
    if |parts| == 3 && parts[1] == name {
      PiecesPrintIff(t, name, parts[2]);
    }
    if exists command, rest :: ' ' !in command && ' ' !in name && t == command + " " + name + " " + rest {
      var command, rest :| ' ' !in command && ' ' !in name && t == command + " " + name + " " + rest;
      SplitPresetText(command, name, rest);
    }
  }

  /** Three pieces of SplitN join back as the first, a space, the second, a space and the third. */
  lemma PresetPieces(t: string, parts: seq<string>)
    requires parts == SplitN(t, ' ', 3) && |parts| == 3
    ensures t == parts[0] + " " + parts[1] + " " + parts[2]
  {
    assert parts[1..][1..] == [parts[2]];
  }

  /** The pieces of command + " " + name + " " + rest, split into at most three. */
  lemma SplitPresetText(command: string, name: string, rest: string)
    requires ' ' !in command && ' ' !in name
    ensures SplitN(command + " " + name + " " + rest, ' ', 3) == [command, name, rest]
  {
    var t := name + " " + rest;
    assert command + " " + name + " " + rest == command + [' '] + t;
    SplitNAt(command + " " + name + " " + rest, ' ', 3, command, t);
    SplitNAt(t, ' ', 2, name, rest);
  }

  /** A well-formed command line prints its text verbatim, however many spaces are inside it. */
  lemma PresetKeepsInnerSpaces(name: string, toPrint: string, presets: map<string, Preset>)
    requires ' ' !in name && name in presets
    requires toPrint != "" && !IsSpace(toPrint[|toPrint| - 1])
    ensures ParsePreset("/preset " + name + " " + toPrint, presets) == Printing(name, toPrint, presets[name])
  {
    var t := "/preset " + name + " " + toPrint;
    assert t == "/preset" + " " + name + " " + toPrint;
    assert t[|t| - 1] == toPrint[|toPrint| - 1];
    TrimSpaceKeeps(t);
    SplitPresetText("/preset", name, toPrint);
  }

  /** Exactly one piece after the command: the usage error, and nothing is printed. */
  lemma PresetMissingText(command: string, name: string, presets: map<string, Preset>)
    requires ' ' !in command && ' ' !in name && name != "" && !IsSpace(name[|name| - 1])
    requires command != "" && !IsSpace(command[0])
    ensures ParsePreset(command + " " + name, presets) == Replied(PresetUsage)
  {
    var t := command + " " + name;
    assert t[0] == command[0] && t[|t| - 1] == name[|name| - 1];
    TrimSpaceKeeps(t);
    SplitNAt(t, ' ', 3, command, name);
    SplitNSingle(name, ' ', 2);
  }

  /** The success reply names the font family exactly when the preset has one. */
  lemma FontInfoMentionsFamily(preset: Preset)
    ensures ',' in FontInfo(preset) <==> preset.FontFamily != ""
  {
    FormatIntPlain(preset.FontSize);
    var head := "📏 Font size: ";
    assert ',' !in head;
    var s := FontInfo(preset);
    if preset.FontFamily != "" {
      assert s[|head + FormatInt(preset.FontSize)|] == ',';
    } else {
      assert s == head + FormatInt(preset.FontSize);
    }
  }

  /** The lines of a concatenation are the lines of each part in turn, whatever the line function. */
  lemma {:induction false} LinesAppend(a: seq<string>, b: seq<string>, line: string -> string)
    ensures Lines(a + b, line) == Lines(a, line) + Lines(b, line)
    decreases |b|
  {
    if |b| == 0 {
      assert a + b == a;
    } else {
      var b' := b[..|b| - 1];
      LinesAppend(a, b', line);
      assert (a + b)[..|a + b| - 1] == a + b';
      assert (a + b)[|a + b| - 1] == b[|b| - 1];
    }
  }

  /** Listing a concatenation of names lists each part in turn. */
  lemma ListingAppend(a: seq<string>, b: seq<string>, presets: map<string, Preset>, withFont: bool)
    ensures Listing(a + b, presets, withFont) == Listing(a, presets, withFont) + Listing(b, presets, withFont)
  {
    LinesAppend(a, b, EntryOf(presets, withFont));
  }

  /** Listing one more name adds its line, if it has a preset, at the end. */
  lemma ListingStep(names: seq<string>, i: nat, presets: map<string, Preset>, withFont: bool)
    requires i < |names|
    ensures Listing(names[..i + 1], presets, withFont) == Listing(names[..i], presets, withFont) +
      (if names[i] in presets then ListingLine(names[i], presets[names[i]], withFont) else "")
  {
    assert names[..i + 1][..i] == names[..i];
    assert Listing(names[..i + 1], presets, withFont) ==
      Lines(names[..i], EntryOf(presets, withFont)) + EntryOf(presets, withFont)(names[i]);
  }

  /** A single name is listed by its line when it has a preset, and skipped otherwise. */
  lemma ListingOne(name: string, presets: map<string, Preset>, withFont: bool)
    ensures Listing([name], presets, withFont) ==
      if name in presets then ListingLine(name, presets[name], withFont) else ""
  {
    assert [name][..0] == [];
    assert Listing([name], presets, withFont) == Lines([], EntryOf(presets, withFont)) + EntryOf(presets, withFont)(name);
  }

  /** The listings walk the names in order: a configured name's line sits between the lines of its neighbours. */
  lemma ListingInOrder(before: seq<string>, name: string, after: seq<string>, presets: map<string, Preset>, withFont: bool)
    ensures Listing(before + [name] + after, presets, withFont) ==
      Listing(before, presets, withFont) +
      (if name in presets then ListingLine(name, presets[name], withFont) else "") +
      Listing(after, presets, withFont)
  {
    ListingAppend(before + [name], after, presets, withFont);
    ListingAppend(before, [name], presets, withFont);
    ListingOne(name, presets, withFont);
  }

  /** Names without a preset add nothing to a listing. */
  lemma {:induction false} ListingSkipsUnknown(names: seq<string>, presets: map<string, Preset>, withFont: bool)
    requires forall i :: 0 <= i < |names| ==> names[i] !in presets
    ensures Listing(names, presets, withFont) == ""
    decreases |names|
  {
    if |names| > 0 {
      ListingSkipsUnknown(names[..|names| - 1], presets, withFont);
    }
  }

  /** With no preset names, the usage reply is the one fixed sentence. */
  lemma UsageWithoutPresets(presets: map<string, Preset>)
    ensures UsageMessage([], presets) == "❌ No presets are configured."
  {
  }

  /** With names but no preset behind any of them, the usage reply is the header and the footer alone. */
  lemma UsageWithOnlyUnknownNames(names: seq<string>, presets: map<string, Preset>)
    requires |names| > 0 && forall i :: 0 <= i < |names| ==> names[i] !in presets
    ensures UsageMessage(names, presets) == ListingHeader + ListingFooter
  {
    ListingSkipsUnknown(names, presets, true);
  }

  /** The reply starts with the check mark exactly when the print succeeded. */
  lemma PresetReplySuccessIff(name: string, preset: Preset, printError: Option<string>)
    ensures PresetReply(name, preset, printError)[0] == '✅' <==> printError.None?
  {
    var reply := PresetReply(name, preset, printError);
    if printError.Some? {
      assert reply[0] == '❌';
    } else {
      assert reply[0] == '✅';
    }
  }
}
