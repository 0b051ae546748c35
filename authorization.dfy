/**
 * The authorization middleware of telegram/middleware_authorization.go:
 * the comma-separated allow-list of chat ids and the allow/deny decision.
 * The environment variable's value is passed in as a string ("" when unset).
 */
module TelegramAuthorization {
  import opened Wrappers
  import opened Text
  import opened Numbers
  import opened TelegramUpdates

  /** What the middleware does with an update: pass it to the next handler, or refuse the chat. */
  datatype Decision = Next | Unauthorized(chatId: int)

  /** One token of the list: trimmed, then an int64 in base 10; empty and invalid tokens are dropped. */
  function ParseToken(token: string): Option<int> {
    var t := TrimSpace(token);
    if t == "" then None else ParseInt(t)
  }

  /** The values present in a sequence of options, in order. */
  function Present(xs: seq<Option<int>>): seq<int>
    decreases |xs|
  {
    if |xs| == 0 then []
    else
      var kept := Present(xs[..|xs| - 1]);
      match xs[|xs| - 1]
      case None => kept
      case Some(id) => kept + [id]
  }

  /** Each token, parsed by `parse`. */
  function ParseEach(parse: string -> Option<int>, tokens: seq<string>): seq<Option<int>> {
    seq(|tokens|, i requires 0 <= i < |tokens| => parse(tokens[i]))
  }

  /** The ids of the tokens that parse, in the order of the tokens. */
  function AllowedIDs(tokens: seq<string>): seq<int> {
    Present(ParseEach(ParseToken, tokens))
  }

  /** A value is present exactly when some option holds it. */
  lemma {:induction false} PresentMembers(xs: seq<Option<int>>, id: int)
    ensures id in Present(xs) <==> exists i :: 0 <= i < |xs| && xs[i] == Some(id)
    decreases |xs|
  {
    if |xs| > 0 {
      var init := xs[..|xs| - 1];
      PresentMembers(init, id);
      if exists i :: 0 <= i < |xs| && xs[i] == Some(id) {
        var i :| 0 <= i < |xs| && xs[i] == Some(id);
        if i < |xs| - 1 {
          assert init[i] == xs[i];
        }
      }
    }
  }

  /** The values of a concatenation are the values of each part in turn. */
  lemma {:induction false} PresentAppend(a: seq<Option<int>>, b: seq<Option<int>>)
    ensures Present(a + b) == Present(a) + Present(b)
    decreases |b|
  {
    if |b| > 0 {
      var b' := b[..|b| - 1];
      PresentAppend(a, b');
      assert (a + b)[..|a + b| - 1] == a + b';
      assert (a + b)[|a + b| - 1] == b[|b| - 1];
      match b[|b| - 1]
      case None =>
      case Some(id) =>
        assert Present(a + b) == (Present(a) + Present(b')) + [id];
    } else {
      assert a + b == a;
    }
  }

  /** One more option adds its value, if it has one, at the end. */
  lemma PresentSnoc(xs: seq<Option<int>>, x: Option<int>)
    ensures Present(xs + [x]) == match x case None => Present(xs) case Some(id) => Present(xs) + [id]
  {
    assert (xs + [x])[..|xs|] == xs;
  }

  /** Parsing is token by token, whatever the parser. */
  lemma ParseEachAppend(parse: string -> Option<int>, a: seq<string>, b: seq<string>)
    ensures ParseEach(parse, a + b) == ParseEach(parse, a) + ParseEach(parse, b)
  {
    var l, r := ParseEach(parse, a + b), ParseEach(parse, a) + ParseEach(parse, b);
    forall i | 0 <= i < |l|
      ensures l[i] == r[i]
    {
      if i < |a| {
        assert (a + b)[i] == a[i];
      } else {
        assert (a + b)[i] == b[i - |a|];
      }
    }
  }

  /** An id is allowed exactly when some token parses to it. */
  lemma AllowedIDsMembers(tokens: seq<string>, id: int)
    ensures id in AllowedIDs(tokens) <==> exists i :: 0 <= i < |tokens| && ParseToken(tokens[i]) == Some(id)
  {
    var parsed := ParseEach(ParseToken, tokens);
    assert |parsed| == |tokens|;
    assert forall i :: 0 <= i < |tokens| ==> parsed[i] == ParseToken(tokens[i]);
    PresentMembers(parsed, id);
    if exists i :: 0 <= i < |parsed| && parsed[i] == Some(id) {
      var i :| 0 <= i < |parsed| && parsed[i] == Some(id);
      assert ParseToken(tokens[i]) == Some(id);
    }
  }

  /** The ids of a concatenated list are those of each part in turn, so the input order is kept. */
  lemma AllowedIDsAppend(a: seq<string>, b: seq<string>)
    ensures AllowedIDs(a + b) == AllowedIDs(a) + AllowedIDs(b)
  {
    ParseEachAppend(ParseToken, a, b);
    PresentAppend(ParseEach(ParseToken, a), ParseEach(ParseToken, b));
  }

  /** The ids of the first i+1 tokens: those of the first i, then token i's id if it has one. */
  lemma AllowedIDsStep(tokens: seq<string>, i: nat)
    requires i < |tokens|
    ensures AllowedIDs(tokens[..i + 1]) ==
      match ParseToken(tokens[i])
      case None => AllowedIDs(tokens[..i])
      case Some(id) => AllowedIDs(tokens[..i]) + [id]
  {
    assert tokens[..i + 1] == tokens[..i] + [tokens[i]];
    ParseEachAppend(ParseToken, tokens[..i], [tokens[i]]);
    PresentSnoc(ParseEach(ParseToken, tokens[..i]), ParseToken(tokens[i]));
  }

  /** A list whose tokens all fail to parse allows nobody. */
  lemma NoValidTokenAllowsNobody(tokens: seq<string>)
    requires forall i :: 0 <= i < |tokens| ==> ParseToken(tokens[i]).None?
    ensures AllowedIDs(tokens) == []
  {
    if AllowedIDs(tokens) != [] {
      AllowedIDsMembers(tokens, AllowedIDs(tokens)[0]);
    }
  }

  /** parseAllowedChatIDs: the loop over the comma-separated tokens. */
  method ParseAllowedChatIDs(chatIDs: string) returns (ids: seq<int>)
    ensures ids == AllowedIDs(Split(chatIDs, ','))
  {
    var tokens := Split(chatIDs, ',');
    ids := [];
    var i := 0;
    while i < |tokens|
      invariant 0 <= i <= |tokens|
      invariant ids == AllowedIDs(tokens[..i])
    {
      var idStr := TrimSpace(tokens[i]);
      AllowedIDsStep(tokens, i);
      i := i + 1;
      if idStr == "" {
        continue;
      }
      var chatId := ParseInt(idStr);
      if chatId.None? {
        continue;
      }
      ids := ids + [chatId.value];
    }
    assert tokens[..i] == tokens;
  }

  /** isAuthorized: a linear search of the list (slices.Contains). */
  function IsAuthorized(chatId: int, ids: seq<int>): (found: bool)
    ensures found <==> chatId in ids
    decreases |ids|
  {
    if |ids| == 0 then false
    else if ids[0] == chatId then true
    else
      assert ids == [ids[0]] + ids[1..];
      IsAuthorized(chatId, ids[1..])
  }

  /**
   * authorizationMiddleware: an update without a message, and every update
   * when the allow-list is unset or empty, goes to the next handler; otherwise
   * only a chat whose id some token of the list names does.
   */
  method AuthorizationMiddleware(update: Update, allowedChatIDs: string) returns (d: Decision)
    ensures update.message.None? ==> d == Next
    ensures allowedChatIDs == "" ==> d == Next
    ensures update.message.Some? && allowedChatIDs != "" ==>
      var tokens := Split(allowedChatIDs, ',');
      (d == Next <==>
        exists i :: 0 <= i < |tokens| && ParseToken(tokens[i]) == Some(update.message.value.chatId))
    ensures d != Next ==> update.message.Some? && d == Unauthorized(update.message.value.chatId)
  {
    if update.message.None? {
      return Next;
    }
    var chatId := update.message.value.chatId;
    if allowedChatIDs == "" {
      return Next;
    }
    var ids := ParseAllowedChatIDs(allowedChatIDs);
    AllowedIDsMembers(Split(allowedChatIDs, ','), chatId);
    if !IsAuthorized(chatId, ids) {
      return Unauthorized(chatId);
    }
    return Next;
  }
}
