/**
  * The model clients' local logic: the system-prompt prepending of both
  * clients, the retry loop of `OllamaChat.chat`, and the brace-extraction
  * fallback of `chat_json`. The HTTP transport is the function `post`, which
  * gives the outcome of the attempt with a given number for a given message
  * list; `json.loads` is the partial function `parse`.
  */
module Llm {
  import opened Wrappers
  import opened Text
  import opened Json

  /** One `{"role": ..., "content": ...}` message of a chat request. */
  datatype Turn = Turn(role: string, content: string)

  /** The message list both clients send: a system message first only when a non-empty system prompt is given. */
  function WithSystem(messages: seq<Turn>, systemPrompt: Option<string>): (r: seq<Turn>)
    ensures |messages| <= |r| <= |messages| + 1
    ensures r[|r| - |messages|..] == messages
    ensures |r| > |messages| <==> systemPrompt.Some? && systemPrompt.value != ""
    ensures |r| > |messages| ==> r[0] == Turn("system", systemPrompt.value)
  {
    if systemPrompt.Some? && systemPrompt.value != "" then [Turn("system", systemPrompt.value)] + messages
    else messages
  }

  // ---------------------------------------------------------------------
  // Retry loop of OllamaChat.chat

  /**
    * What one `requests.post` attempt gives: an exception, or a response with
    * its status code, its text, and the outcome of `resp.json()`.
    */
  datatype Attempt =
    | Raised(error: string)
    | Response(status: int, text: string, body: Result<Json>)

  predicate Succeeded(a: Attempt)
  {
    a.Response? && a.status == 200 && a.body.Ok?
  }

  /** The exception a failed attempt leaves in `last_err`. */
  function AttemptError(a: Attempt): string
    requires !Succeeded(a)
  {
    match a
    case Raised(e) => e
    case Response(status, text, body) =>
      if status != 200 then "Ollama API error " + IntToString(status) + ": " + text
      else body.error
  }

  /** The error Python raises when the loop runs zero times and `data` is read unbound. */
  const UnboundData: string := "cannot access local variable 'data' where it is not associated with a value"

  /**
    * The retry loop from attempt `k` on: the JSON data of the first
    * successful attempt, or the error of attempt `maxRetries` when every
    * attempt failed.
    */
  function RetryFrom(post: (seq<Turn>, nat) -> Attempt, payload: seq<Turn>, k: nat, maxRetries: int): Result<Json>
    requires k <= maxRetries
    decreases maxRetries - k
  {
    var a := post(payload, k);
    if Succeeded(a) then Ok(a.body.value)
    else if k < maxRetries then RetryFrom(post, payload, k + 1, maxRetries)
    else Err(AttemptError(a))
  }

  /** `data.get("message", {}).get("content", "")`; a non-dict raises AttributeError. */
  function Content(data: Json): (r: Result<Json>)
    ensures !data.JObj? ==> r == Err(NoAttribute(data, "get"))
    ensures data.JObj? && !HasKey(data.fields, "message") ==> r == Ok(JStr(""))
    ensures data.JObj? && HasKey(data.fields, "message") ==>
      var msg := Lookup(data.fields, "message").value;
      && (!msg.JObj? ==> r == Err(NoAttribute(msg, "get")))
      && (msg.JObj? && !HasKey(msg.fields, "content") ==> r == Ok(JStr("")))
      && (msg.JObj? && HasKey(msg.fields, "content") ==> r == Ok(Lookup(msg.fields, "content").value))
  {
    if !data.JObj? then Err(NoAttribute(data, "get"))
    else
      var msg := Get(data.fields, "message", JObj([]));
      if !msg.JObj? then Err(NoAttribute(msg, "get"))
      else Ok(Get(msg.fields, "content", JStr("")))
  }

  /**
    * What `OllamaChat.chat` returns or raises: the content of the first
    * successful attempt, or the error of the last one when all of them failed.
    */
  function OllamaReply(post: (seq<Turn>, nat) -> Attempt, payload: seq<Turn>, maxRetries: int): (r: Result<Json>)
    ensures maxRetries < 0 ==> r == Err(UnboundData)
    ensures forall j :: 0 <= j <= maxRetries && Succeeded(post(payload, j)) && FailedBefore(post, payload, 0, j) ==>
      r == Content(post(payload, j).body.value)
    ensures maxRetries >= 0 && FailedBefore(post, payload, 0, maxRetries + 1) ==>
      r == Err(AttemptError(post(payload, maxRetries)))
  {
    if maxRetries < 0 then Err(UnboundData)
    else
      RetryReachesFirstSuccess(post, payload, 0, maxRetries);
      RetryAllFail(post, payload, 0, maxRetries);
      match RetryFrom(post, payload, 0, maxRetries)
      case Ok(data) => Content(data)
      case Err(e) => Err(e)
  }

  /** Every attempt from `k` up to, not including, `j` failed. */
  predicate FailedBefore(post: (seq<Turn>, nat) -> Attempt, payload: seq<Turn>, k: nat, j: int)
  {
    forall i :: k <= i < j ==> !Succeeded(post(payload, i))
  }

  /** The loop from attempt `k` returns the data of the first successful attempt from `k` on. */
  lemma {:induction false} RetryReachesFirstSuccess(post: (seq<Turn>, nat) -> Attempt, payload: seq<Turn>, k: nat, maxRetries: int)
    requires k <= maxRetries
    ensures forall j :: k <= j <= maxRetries && Succeeded(post(payload, j)) && FailedBefore(post, payload, k, j) ==>
      RetryFrom(post, payload, k, maxRetries) == Ok(post(payload, j).body.value)
    decreases maxRetries - k
  {
    if !Succeeded(post(payload, k)) && k < maxRetries {
      RetryReachesFirstSuccess(post, payload, k + 1, maxRetries);
      forall j | k <= j <= maxRetries && Succeeded(post(payload, j)) && FailedBefore(post, payload, k, j)
        ensures RetryFrom(post, payload, k, maxRetries) == Ok(post(payload, j).body.value)
      {
        assert j != k;
        assert FailedBefore(post, payload, k + 1, j);
      }
    }
  }

  /** When every attempt from `k` on fails, the loop re-raises the last attempt's error. */
  lemma {:induction false} RetryAllFail(post: (seq<Turn>, nat) -> Attempt, payload: seq<Turn>, k: nat, maxRetries: int)
    requires k <= maxRetries
    ensures FailedBefore(post, payload, k, maxRetries + 1) ==>
      RetryFrom(post, payload, k, maxRetries) == Err(AttemptError(post(payload, maxRetries)))
    decreases maxRetries - k
  {
    if FailedBefore(post, payload, k, maxRetries + 1) && k < maxRetries {
      assert !Succeeded(post(payload, k));
      assert FailedBefore(post, payload, k + 1, maxRetries + 1);
      RetryAllFail(post, payload, k + 1, maxRetries);
    }
  }

  /** A successful loop took its data from a successful attempt, all earlier attempts having failed. */
  lemma {:induction false} RetrySuccess(post: (seq<Turn>, nat) -> Attempt, payload: seq<Turn>, k: nat, maxRetries: int)
    requires k <= maxRetries && RetryFrom(post, payload, k, maxRetries).Ok?
    ensures exists j :: (
      && k <= j <= maxRetries && Succeeded(post(payload, j))
      && RetryFrom(post, payload, k, maxRetries).value == post(payload, j).body.value
      && (forall i :: k <= i < j ==> !Succeeded(post(payload, i))))
    decreases maxRetries - k
  {
    if !Succeeded(post(payload, k)) {
      RetrySuccess(post, payload, k + 1, maxRetries);
    }
  }

  /** A failed loop tried every attempt from `k` to `maxRetries` and re-raises the last one's error. */
  lemma {:induction false} RetryFailure(post: (seq<Turn>, nat) -> Attempt, payload: seq<Turn>, k: nat, maxRetries: int)
    requires k <= maxRetries && RetryFrom(post, payload, k, maxRetries).Err?
    ensures forall i :: k <= i <= maxRetries ==> !Succeeded(post(payload, i))
    ensures RetryFrom(post, payload, k, maxRetries).error == AttemptError(post(payload, maxRetries))
    decreases maxRetries - k
  {
    if k < maxRetries {
      RetryFailure(post, payload, k + 1, maxRetries);
    }
  }

  /**
    * `OllamaChat.chat`: at most `maxRetries + 1` attempts, stopping at the
    * first success.
    */
  method OllamaChat(messages: seq<Turn>, systemPrompt: Option<string>, maxRetries: int,
                    post: (seq<Turn>, nat) -> Attempt)
    returns (r: Result<Json>, attempts: nat)
    ensures r == OllamaReply(post, WithSystem(messages, systemPrompt), maxRetries)
    ensures attempts <= Max(0, maxRetries + 1)
    ensures forall i :: 0 <= i < attempts - 1 ==> !Succeeded(post(WithSystem(messages, systemPrompt), i))
  {
    var payload := WithSystem(messages, systemPrompt);
    attempts := 0;
    var attempt := 0;
    while attempt <= maxRetries
      invariant maxRetries >= 0 ==> attempt <= maxRetries
      invariant maxRetries < 0 ==> attempt == 0
      invariant attempts == attempt
      invariant maxRetries >= 0 ==> RetryFrom(post, payload, 0, maxRetries) == RetryFrom(post, payload, attempt, maxRetries)
      invariant forall i :: 0 <= i < attempt ==> !Succeeded(post(payload, i))
      decreases maxRetries - attempt
    {
      var a := post(payload, attempt);
      attempts := attempts + 1;
      if Succeeded(a) {
        assert RetryFrom(post, payload, attempt, maxRetries) == Ok(a.body.value);
        r := Content(a.body.value);
        return;
      }
      if attempt < maxRetries {
        attempt := attempt + 1;
      } else {
        assert RetryFrom(post, payload, attempt, maxRetries) == Err(AttemptError(a));
        r := Err(AttemptError(a));
        return;
      }
    }
    r := Err(UnboundData);
  }

  // ---------------------------------------------------------------------
  // chat_json

  /**
    * The fallback candidate of `chat_json`: the text from the first `{` to the
    * last `}`, when both exist and the `}` comes later.
    */
  function BraceCandidate(text: string): (r: Option<string>)
    ensures r.Some? <==> exists i, j :: 0 <= i < j < |text| && text[i] == '{' && text[j] == '}'
    ensures r.Some? ==> |r.value| >= 2 && r.value[0] == '{' && r.value[|r.value| - 1] == '}'
    ensures r.Some? ==> exists i | 0 <= i <= |text| - |r.value| ::
      OccursAt(text, r.value, i) && '{' !in text[..i] && '}' !in text[i + |r.value|..]
  {
    var start := FindChar(text, '{');
    var end := RFindChar(text, '}');
    if start != -1 && end != -1 && end > start then
      assert OccursAt(text, text[start..end + 1], start);
      Some(text[start..end + 1])
    else
      NoBracePair(text);
      None
  }

  lemma NoBracePair(text: string)
    requires var start := FindChar(text, '{'); var end := RFindChar(text, '}');
      !(start != -1 && end != -1 && end > start)
    ensures !exists i, j :: 0 <= i < j < |text| && text[i] == '{' && text[j] == '}'
  {
    var start := FindChar(text, '{');
    var end := RFindChar(text, '}');
    forall i, j | 0 <= i < j < |text| && text[i] == '{'
      ensures text[j] != '}'
    {
      assert text[i] in text;
      assert text[j] in text;
    }
  }

  /**
    * `chat_json` after the model call: the parse of the whole reply, else the
    * parse of the brace candidate, else the original parse error.
    */
  function ChatJson(text: string, parse: string -> Result<Json>): (r: Result<Json>)
    ensures parse(text).Ok? ==> r == parse(text)
    ensures r.Err? ==> r == parse(text)
    ensures r.Ok? && parse(text).Err? ==>
      BraceCandidate(text).Some? && r == parse(BraceCandidate(text).value)
    ensures parse(text).Err? && BraceCandidate(text).Some? && parse(BraceCandidate(text).value).Ok? ==>
      r == parse(BraceCandidate(text).value)
  {
    match parse(text)
    case Ok(v) => Ok(v)
    case Err(e) =>
      match BraceCandidate(text)
      case Some(candidate) =>
        (match parse(candidate)
         case Ok(v) => Ok(v)
         case Err(_) => Err(e))
      case None => Err(e)
  }
}
