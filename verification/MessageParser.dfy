/** The token iterator that skips escaped tokens and code blocks, and the mentions collected from it. */
module MessageParser {
  import opened Wrappers

  datatype Token =
    | Escape
    | CodeblockMarker(ty: nat)
    | UserMention(id: string)
    | RoleMention(id: string)
    | ChannelMention(id: string)
    | Emoji(id: string)
    | MentionEveryone
    | MentionOnline

  // ---- What the iterator yields

  /** The position of the first `marker` in `tokens`, or the length if there is none. */
  function FirstIndex(tokens: seq<Token>, marker: Token): (i: nat)
    ensures i <= |tokens|
    ensures i < |tokens| ==> tokens[i] == marker
    ensures marker !in tokens[..i]
  {
    if tokens == [] || tokens[0] == marker then 0
    else
      var i := 1 + FirstIndex(tokens[1..], marker);
      assert tokens[..i] == [tokens[0]] + tokens[1..][..i - 1];
      i
  }

  /** The lexed tokens as the iterator passes them on. */
  function Expand(tokens: seq<Token>): seq<Token>
    decreases |tokens|, 1
  {
    if tokens == [] then [] else [tokens[0]] + Beyond(tokens[0], tokens[1..])
  }

  /** What follows once `token` has been passed on and `rest` is still to be lexed. */
  function Beyond(token: Token, rest: seq<Token>): seq<Token>
    decreases |rest|, 2
  {
    match token
    case Escape => Expand(if rest == [] then [] else rest[1..])
    case CodeblockMarker(_) =>
      var i := FirstIndex(rest, token);
      if i < |rest| then [token] + Expand(rest[i + 1..]) else rest
    case _ => Expand(rest)
  }

  lemma FirstIndexIs(before: seq<Token>, marker: Token, after: seq<Token>)
    requires marker !in before
    ensures FirstIndex(before + [marker] + after, marker) == |before|
  {
    var all := before + [marker] + after;
    assert all[|before|] == marker;
    assert forall i :: 0 <= i < |before| ==> all[i] == before[i];
    assert forall n :: |before| < n <= |all| ==> all[..n][|before|] == marker;
  }

  /** A closed code block shows its two markers and nothing of what is between, whatever that is. */
  lemma BlockHidesBody(ty: nat, body: seq<Token>, after: seq<Token>)
    requires CodeblockMarker(ty) !in body
    ensures Expand([CodeblockMarker(ty)] + body + [CodeblockMarker(ty)] + after) ==
            [CodeblockMarker(ty), CodeblockMarker(ty)] + Expand(after)
  {
    var marker := CodeblockMarker(ty);
    var tokens := [marker] + body + [marker] + after;
    assert tokens[1..] == body + [marker] + after;
    FirstIndexIs(body, marker, after);
    assert tokens[1..][|body| + 1..] == after;
  }

  /** A marker that is never closed releases everything after it raw, escapes and other blocks included. */
  lemma UnclosedReleasesRaw(ty: nat, rest: seq<Token>)
    requires CodeblockMarker(ty) !in rest
    ensures Expand([CodeblockMarker(ty)] + rest) == [CodeblockMarker(ty)] + rest
  {
    var tokens := [CodeblockMarker(ty)] + rest;
    assert tokens[1..] == rest;
  }

  /** An escape is passed on and takes the next token with it, whatever that is. */
  lemma EscapeHidesNext(next: Token, after: seq<Token>)
    ensures Expand([Escape, next] + after) == [Escape] + Expand(after)
    ensures Expand([Escape]) == [Escape]
  {
    var tokens := [Escape, next] + after;
    assert tokens[1..][1..] == after;
  }

  /** Ordinary tokens are passed on as they are. */
  lemma {:induction false} OrdinaryPassesThrough(before: seq<Token>, after: seq<Token>)
    requires forall i :: 0 <= i < |before| ==> !before[i].Escape? && !before[i].CodeblockMarker?
    ensures Expand(before + after) == before + Expand(after)
  {
    if before == [] {
      assert before + after == after;
    } else {
      assert (before + after)[1..] == before[1..] + after;
      OrdinaryPassesThrough(before[1..], after);
    }
  }

  // ---- The iterator

  class MessageParserIterator {
    /** What the lexer has still to give, and the tokens looked ahead at and given back. */
    var inner: seq<Token>
    var temp: seq<Token>

    ghost function Pending(): seq<Token>
      reads this
    {
      temp + Expand(inner)
    }

    constructor (tokens: seq<Token>)
      ensures Pending() == Expand(tokens)
    {
      inner, temp := tokens, [];
    }

    method Advance() returns (token: Option<Token>)
      modifies `inner
      ensures old(inner) == [] ==> token == None && inner == []
      ensures old(inner) != [] ==> token == Some(old(inner)[0]) && inner == old(inner)[1..]
    {
      token := None;
      if inner != [] {
        token := Some(inner[0]);
        inner := inner[1..];
      }
    }

    method Next() returns (token: Option<Token>)
      modifies this
      ensures token == None <==> old(Pending()) == []
      ensures token.Some? ==> old(Pending()) == [token.value] + Pending()
      ensures token == None ==> Pending() == []
    {
      if temp != [] {
        token := Some(temp[0]);
        temp := temp[1..];
        return;
      }
      assert Pending() == Expand(inner);
      token := Advance();
      ghost var rest := inner;
      if token == Some(Escape) {
        var _ := Advance();
      } else if token.Some? && token.value.CodeblockMarker? {
        CloseBlock(token.value);
      }
      assert token.Some? ==> Pending() == Beyond(token.value, rest);
    }

    /** The lookahead loop after an opening marker: drop everything to its match, or give it all back. */
    method CloseBlock(marker: Token)
      requires marker.CodeblockMarker? && temp == []
      modifies this
      ensures Pending() == Beyond(marker, old(inner))
    {
      ghost var start := inner;
      ghost var n := 0;
      while true
        invariant n <= |start| && temp == start[..n] && inner == start[n..]
        invariant marker !in temp
        decreases |inner|
      {
        var next := Advance();
        if next == Some(marker) {
          assert start == start[..n] + [marker] + start[n + 1..];
          FirstIndexIs(start[..n], marker, start[n + 1..]);
          temp := [marker];
          break;
        } else if next.Some? {
          temp := temp + [next.value];
          n := n + 1;
        } else {
          assert temp == start;
          break;
        }
      }
    }
  }

  // ---- Collecting mentions

  datatype Results = Results(users: set<string>, roles: set<string>, channels: set<string>, emojis: set<string>,
                             everyone: bool, online: bool)

  const NOTHING := Results({}, {}, {}, {}, false, false)

  /** `results` holds exactly what occurs in `tokens`. */
  ghost predicate Collects(results: Results, tokens: seq<Token>) {
    && (forall id :: id in results.users <==> UserMention(id) in tokens)
    && (forall id :: id in results.roles <==> RoleMention(id) in tokens)
    && (forall id :: id in results.channels <==> ChannelMention(id) in tokens)
    && (forall id :: id in results.emojis <==> Emoji(id) in tokens)
    && (results.everyone <==> MentionEveryone in tokens)
    && (results.online <==> MentionOnline in tokens)
  }

  method ParseMessage(tokens: seq<Token>) returns (results: Results)
    ensures Collects(results, Expand(tokens))
  {
    results := NOTHING;
    var tokenIterator := new MessageParserIterator(tokens);
    ghost var seen: seq<Token> := [];
    while true
      invariant fresh(tokenIterator)
      invariant Expand(tokens) == seen + tokenIterator.Pending()
      invariant Collects(results, seen)
      decreases |tokenIterator.Pending()|
    {
      var token := tokenIterator.Next();
      match token {
        case None => break;
        case Some(t) =>
          match t {
            case Escape =>
            case CodeblockMarker(_) =>
            case UserMention(id) => results := results.(users := results.users + {id});
            case RoleMention(id) => results := results.(roles := results.roles + {id});
            case ChannelMention(id) => results := results.(channels := results.channels + {id});
            case Emoji(id) => results := results.(emojis := results.emojis + {id});
            case MentionEveryone => results := results.(everyone := true);
            case MentionOnline => results := results.(online := true);
          }
          seen := seen + [t];
      }
    }
  }
}
