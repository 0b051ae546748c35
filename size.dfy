/**
 * The /size command of telegram/handler_size.go: the guards on the update,
 * the split of the message text on single spaces, and the chain of checks
 * that either answers with a usage error or prints the label at the given
 * font size. The print itself is Printers.Printer.PrintLabel; here the
 * handler's decision and the reply to the print's outcome are modelled.
 */
module TelegramSize {
  import opened Wrappers
  import opened Text
  import opened Numbers
  import opened TelegramUpdates
  import opened TelegramBot

  /**
   * What the handler does: nothing, answer with the command's usage, answer
   * with the usage after an error, or print `text` at `fontSize`.
   */
  datatype SizeOutcome = Ignored | Usage | UsageError(error: string) | Printing(text: string, fontSize: int)

  const MissingText: string := "Missing text to print."
  /** One message; written as two literals because the verifier cannot index into a single literal this long. */
  const EmptyLabel: string := "Label is empty." + " Please provide a valid label after the size information."
  const FailedPrefix: string := "❌ Failed to print label: "
  const PrintedReply: string := "✅ Label printed successfully!"

  /** The error for a font size that Atoi refuses. */
  function InvalidSize(fontSize: string): string {
    "Invalid font size '" + fontSize + "'. Please provide a valid number."
  }

  /**
   * The checks of sizeHandler after the guards, in the code's order: the
   * number of pieces, then the font size, then the label.
   */
  function ParseSize(text: string): (o: SizeOutcome)
    ensures !o.Ignored?
    ensures o.Printing? ==> o.text != "" && o.text == TrimSpace(o.text)
  {
    var parts := Split(text, ' ');
    if |parts| < 2 then Usage
    else if |parts| < 3 then UsageError(MissingText)
    else
      var fontSize := parts[1];
      var text := TrimSpace(Join(parts[2..], " "));
      match Atoi(fontSize)
      case None => UsageError(InvalidSize(fontSize))
      case Some(n) =>
        if text == "" then UsageError(EmptyLabel)
        else
          TrimSpaceIdempotent(Join(parts[2..], " "));
          Printing(text, n)
  }

  /** sizeHandler: an update without a message, text or sender is dropped; otherwise ParseSize decides. */
  function SizeHandler(update: Update): SizeOutcome {
    match update.message
    case None => Ignored
    case Some(m) =>
      if m.text == "" || m.from.None? then Ignored else ParseSize(m.text)
  }

  /** The text sent for a usage answer. */
  function UsageReply(o: SizeOutcome): string
    requires o.Usage? || o.UsageError?
  {
    if o.Usage? then GetCommandUsageMessage("size") else GetCommandUsageMessageWithError("size", o.error)
  }

  /** The reply once PrintLabel has returned: its error's text, or the success message. */
  function SizeReply(printError: Option<string>): string {
    match printError
    case Some(e) => FailedPrefix + e
    case None => PrintedReply
  }

  /** The handler stays silent exactly for an update without message, text or sender. */
  lemma SizeIgnoredIff(update: Update)
    ensures SizeHandler(update).Ignored? <==>
      update.message.None? || update.message.value.text == "" || update.message.value.from.None?
  {
  }

  /** Without a space the text is one piece, and the answer is the plain usage message. */
  lemma SizeUsageWithoutSpace(text: string)
    ensures ' ' !in text <==> ParseSize(text) == Usage
  {
    SplitSingle(text, ' ');
  }

  /** The user can tell the plain usage message from each of the handler's usage errors. */
  lemma UsageRepliesDiffer(text: string)
    requires ParseSize(text).UsageError?
    ensures UsageReply(ParseSize(text)) != UsageReply(Usage)
  {
    var parts := Split(text, ' ');
    if |parts| < 3 {
      UsageMessageIsNotError(MissingText);
    } else if Atoi(parts[1]).None? {
      UsageMessageIsNotError(InvalidSize(parts[1]));
    } else {
      assert EmptyLabel[0] == 'L';
      UsageMessageIsNotError(EmptyLabel);
    }
  }

  /** The usage message of /size is never an error message whose text starts otherwise than "Usage". */
  lemma UsageMessageIsNotError(err: string)
    requires err != "" && err[0] != 'U'
    ensures GetCommandUsageMessage("size") != GetCommandUsageMessageWithError("size", err)
  {
    RegistryKeys();
    var usage := GetCommandUsageMessage("size");
    var withError := GetCommandUsageMessageWithError("size", err);
    assert usage == EntryUsage(Registry["size"]);
    assert usage[2] == 'U';
    assert withError[..|"❌ " + err + "\n\n"|] == "❌ " + err + "\n\n";
    assert withError[2] == err[0];
  }

  /** One space, text after it but no second space: the answer is the missing-text error. */
  lemma SizeMissingText(command: string, fontSize: string)
    requires ' ' !in command && ' ' !in fontSize
    ensures ParseSize(command + " " + fontSize) == UsageError(MissingText)
  {
    SplitTwo(command, ' ', fontSize);
  }

  /**
   * A label is printed exactly when the text is a command, a space, a font
   * size Atoi accepts, a space and a rest whose TrimSpace is non-empty; that
   * TrimSpace is what gets printed, at that size.
   */
  lemma SizePrintIff(text: string, printed: string, n: int)
    ensures ParseSize(text) == Printing(printed, n) <==>
      exists command, fontSize, rest ::
        && ' ' !in command && ' ' !in fontSize
        && text == command + " " + fontSize + " " + rest
        && Atoi(fontSize) == Some(n) && printed == TrimSpace(rest) && printed != ""
  {
    var parts := Split(text, ' ');
    SplitThree(text, ' ');
    if ParseSize(text) == Printing(printed, n) {
      var rest := Join(parts[2..], " ");
      assert text == parts[0] + " " + parts[1] + " " + rest;
    }
    if exists command, fontSize, rest ::
        && ' ' !in command && ' ' !in fontSize
        && text == command + " " + fontSize + " " + rest
        && Atoi(fontSize) == Some(n) && printed == TrimSpace(rest) && printed != "" {
      var command, fontSize, rest :|
        && ' ' !in command && ' ' !in fontSize
        && text == command + " " + fontSize + " " + rest
        && Atoi(fontSize) == Some(n) && printed == TrimSpace(rest) && printed != "";
      SplitSizeText(command, fontSize, rest);
    }
  }

  /** The pieces of command + " " + fontSize + " " + rest. */
  lemma SplitSizeText(command: string, fontSize: string, rest: string)
    requires ' ' !in command && ' ' !in fontSize
    ensures var parts := Split(command + " " + fontSize + " " + rest, ' ');
      |parts| >= 3 && parts[0] == command && parts[1] == fontSize && Join(parts[2..], " ") == rest
  {
    var text := command + " " + fontSize + " " + rest;
    var t := fontSize + " " + rest;
    assert text == command + [' '] + t;
    SplitAt(text, ' ', command, t);
    SplitAt(t, ' ', fontSize, rest);
    assert Split(text, ' ')[2..] == Split(rest, ' ');
  }

  /** The font size is checked before the label: a bad size is reported even when the label is empty too. */
  lemma SizeCheckedBeforeLabel(command: string, fontSize: string, rest: string)
    requires ' ' !in command && ' ' !in fontSize && Atoi(fontSize).None?
    ensures ParseSize(command + " " + fontSize + " " + rest) == UsageError(InvalidSize(fontSize))
  {
    SplitSizeText(command, fontSize, rest);
  }

  /** A valid size followed by white space only is answered with the empty-label error. */
  lemma SizeEmptyLabel(command: string, fontSize: string, rest: string)
    requires ' ' !in command && ' ' !in fontSize && Atoi(fontSize).Some? && TrimSpace(rest) == ""
    ensures ParseSize(command + " " + fontSize + " " + rest) == UsageError(EmptyLabel)
  {
    SplitSizeText(command, fontSize, rest);
  }

  /** Two spaces after the command make the font size the empty piece, which Atoi refuses. */
  lemma SizeDoubleSpace(command: string, rest: string)
    requires ' ' !in command
    ensures ParseSize(command + "  " + rest) == UsageError(InvalidSize(""))
  {
    assert command + "  " + rest == command + " " + "" + " " + rest;
    assert !IsDecimal("");
    SizeCheckedBeforeLabel(command, "", rest);
  }

  /** The reply tells success from failure, and one error from another. */
  lemma SizeReplyInjective(a: Option<string>, b: Option<string>)
    ensures SizeReply(a) == SizeReply(b) ==> a == b
  {
    if SizeReply(a) == SizeReply(b) && a.Some? && b.Some? {
      assert a.value == SizeReply(a)[|FailedPrefix|..];
      assert b.value == SizeReply(b)[|FailedPrefix|..];
    }
    if a.Some? != b.Some? {
      assert SizeReply(a)[0] != SizeReply(b)[0];
    }
  }
}
