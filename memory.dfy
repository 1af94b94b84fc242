/**
  * `ConversationMemory`: the rolling window of recent user and assistant
  * messages that the chat agent keeps for context and for recaps.
  */
module Memory {
  import opened Wrappers
  import opened Text

  datatype Role = User | Assistant

  function RoleName(r: Role): string
  {
    match r
    case User => "user"
    case Assistant => "assistant"
  }

  datatype Message = Message(role: Role, content: string)

  /** Python's `content or ""` on an optional string. */
  function OrEmpty(content: Option<string>): (r: string)
    ensures content.Some? ==> r == content.value
    ensures content.None? ==> r == ""
  {
    match content
    case Some(c) => c
    case None => ""
  }

  /**
    * What `_append` keeps of `ms` once a message has been added: the last
    * `max` messages when there are more than `max`. The slice is written with
    * a negative start, so a limit of zero keeps every message and a negative
    * limit drops that many from the front.
    */
  function Trimmed(ms: seq<Message>, max: int): (r: seq<Message>)
    ensures |r| <= |ms| && r == ms[|ms| - |r|..]
    ensures max >= 1 ==> |r| == Min(max, |ms|)
    ensures max == 0 ==> r == ms
  {
    if |ms| > max then SliceFrom(ms, -max) else ms
  }

  /** The window after every message of `history` has been appended, one at a time. */
  function Window(history: seq<Message>, max: int): seq<Message>
    decreases |history|
  {
    if history == [] then []
    else Trimmed(Window(history[..|history| - 1], max) + [history[|history| - 1]], max)
  }

  /** With a positive limit the window is exactly the newest `max` messages ever added, in order. */
  lemma {:induction false} WindowIsNewest(history: seq<Message>, max: int)
    requires max >= 1
    ensures Window(history, max) == history[|history| - Min(max, |history|)..]
    decreases |history|
  {
    if history != [] {
      var prefix := history[..|history| - 1];
      WindowIsNewest(prefix, max);
      NewestAfterAppend(history, max, Window(prefix, max));
    }
  }

  /** Appending one message to the newest `max` of the others keeps the newest `max` of all. */
  lemma NewestAfterAppend(history: seq<Message>, max: int, w: seq<Message>)
    requires max >= 1 && history != []
    requires w == history[..|history| - 1][|history| - 1 - Min(max, |history| - 1)..]
    ensures Trimmed(w + [history[|history| - 1]], max) == history[|history| - Min(max, |history|)..]
  {
    var h := |history|;
    var c := Min(max, h - 1);
    assert w + [history[h - 1]] == history[h - 1 - c..];
    var t := Trimmed(w + [history[h - 1]], max);
    assert |t| == Min(max, h);
    SuffixOfSuffix(history, h - 1 - c, |t|);
  }

  lemma SuffixOfSuffix(s: seq<Message>, i: nat, k: nat)
    requires i <= |s| && k <= |s| - i
    ensures s[i..][|s| - i - k..] == s[|s| - k..]
  {
  }

  /** Clipping a line to `maxChars` characters, the last one an ellipsis. */
  function Clip(text: string, maxChars: int): (r: string)
    ensures |text| <= maxChars ==> r == text
    ensures |text| > maxChars ==> r == SliceTo(text, maxChars - 1) + "…"
    ensures maxChars >= 1 ==> |r| <= maxChars
  {
    if |text| > maxChars then SliceTo(text, maxChars - 1) + "…" else text
  }

  /** One line of `as_bullets`: role, then the stripped content on one line, clipped. */
  function Bullet(m: Message, maxChars: int): string
  {
    "- " + RoleName(m.role) + ": " + Clip(ReplaceChar(Strip(m.content), '\n', ' '), maxChars)
  }

  function Bullets(ms: seq<Message>, maxChars: int): (r: seq<string>)
    ensures |r| == |ms|
    ensures forall i :: 0 <= i < |ms| ==> r[i] == Bullet(ms[i], maxChars)
  {
    seq(|ms|, i requires 0 <= i < |ms| => Bullet(ms[i], maxChars))
  }

  /** A bullet is a single line, starting with its role. */
  lemma {:induction false} BulletIsOneLine(m: Message, maxChars: int)
    ensures '\n' !in Bullet(m, maxChars)
    ensures StartsWith(Bullet(m, maxChars), "- " + RoleName(m.role) + ": ")
  {
    var text := ReplaceChar(Strip(m.content), '\n', ' ');
    assert '\n' !in text;
    var c := Clip(text, maxChars);
    if |text| > maxChars {
      var cut := SliceTo(text, maxChars - 1);
      assert cut == text[..|cut|];
      assert '\n' !in cut;
      assert c == cut + "…";
    }
    assert '\n' !in c;
    var head := "- " + RoleName(m.role) + ": ";
    assert '\n' !in head;
    assert Bullet(m, maxChars) == head + c;
  }

  /** The recap text splits back into one line per recent message. */
  lemma {:induction false} BulletLines(ms: seq<Message>, maxChars: int)
    requires ms != []
    ensures Split(Join("\n", Bullets(ms, maxChars)), '\n') == Bullets(ms, maxChars)
    ensures Join("\n", Bullets(ms, maxChars)) != ""
  {
    var b := Bullets(ms, maxChars);
    forall i | 0 <= i < |b| ensures '\n' !in b[i] {
      BulletIsOneLine(ms[i], maxChars);
    }
    SplitJoin(b, '\n');
    BulletIsOneLine(ms[0], maxChars);
  }

  class ConversationMemory {
    const maxMessages: int
    var messages: seq<Message>

    constructor (maxMessages: int)
      ensures this.maxMessages == maxMessages && messages == []
    {
      this.maxMessages := maxMessages;
      messages := [];
    }

    /** The bound `_append` keeps for a positive limit. */
    predicate Valid()
      reads this
    {
      maxMessages >= 1 ==> |messages| <= maxMessages
    }

    method Append(msg: Message)
      modifies this
      ensures messages == Trimmed(old(messages) + [msg], maxMessages)
      ensures Valid()
      ensures messages != [] ==> messages[|messages| - 1] == msg || maxMessages < 0
    {
      messages := messages + [msg];
      if |messages| > maxMessages {
        messages := SliceFrom(messages, -maxMessages);
      }
    }

    /** `add_user`: a missing content (`None`) is stored as the empty string. */
    method AddUser(content: Option<string>)
      modifies this
      ensures messages == Trimmed(old(messages) + [Message(User, OrEmpty(content))], maxMessages)
      ensures Valid()
    {
      Append(Message(User, OrEmpty(content)));
    }

    method AddAssistant(content: Option<string>)
      modifies this
      ensures messages == Trimmed(old(messages) + [Message(Assistant, OrEmpty(content))], maxMessages)
      ensures Valid()
    {
      Append(Message(Assistant, OrEmpty(content)));
    }

    /** `recent(n)`: nothing for `n <= 0`, otherwise the newest `n` messages (all of them if fewer). */
    function Recent(n: int): (r: seq<Message>)
      reads this
      ensures |r| == (if n <= 0 then 0 else Min(n, |messages|))
      ensures r == messages[|messages| - |r|..]
    {
      if n <= 0 then [] else SliceFrom(messages, -n)
    }

    /** `as_bullets(n, max_chars)`: one line per recent message, joined with newlines. */
    method AsBullets(n: int, maxChars: int) returns (r: string)
      ensures r == Join("\n", Bullets(Recent(n), maxChars))
    {
      var recent := Recent(n);
      var out: seq<string> := [];
      ghost var all := Bullets(recent, maxChars);
      for i := 0 to |recent|
        invariant out == all[..i]
      {
        PrefixStep(all, i, Bullet(recent[i], maxChars));
        out := out + [Bullet(recent[i], maxChars)];
      }
      assert all[..|recent|] == all;
      r := Join("\n", out);
    }
  }
}
