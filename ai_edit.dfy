/**
 * The AI edit path of backend/server.py: `process_ai_edit` asks a chat model to
 * rewrite the Lottie document and falls back to the unchanged document on every
 * failure; `edit_animation_with_ai` wraps its result in the response body.
 *
 * The chat model (`LlmChat`) is the parameter `chat`, and `json.loads` is the
 * parameter `decode` (`None` where it raises `JSONDecodeError`).
 */
module AiEdit {
  import opened Wrappers
  import opened JsonModel
  import opened Text

  // ---------------------------------------------------------------- reply cleaning

  /**
   * Strips the model's reply, drops a leading "```json" (7 characters) and,
   * independently, a trailing "```" (3 characters), then strips again.
   */
  function CleanReply(response: string): string
  {
    PyStrip(Unfence(PyStrip(response)))
  }

  /** The two marker checks, each applied on its own. */
  function Unfence(text: string): string
  {
    var text := if StartsWith(text, "```json") then text[7..] else text;
    if EndsWith(text, "```") then text[..|text| - 3] else text
  }

  /** The cleaned reply never starts or ends with whitespace. */
  lemma CleanReplyTrimmed(response: string)
    ensures Trimmed(CleanReply(response), PyWhitespace)
  {
    StripSpec(Unfence(PyStrip(response)), PyWhitespace);
  }

  /** A reply fenced as a json code block yields the stripped body of the block. */
  lemma CleanReplyFenced(body: string)
    ensures CleanReply("```json" + body + "```") == PyStrip(body)
  {
    var s := "```json" + body + "```";
    var e: string := [];
    assert Trimmed(s, PyWhitespace);
    assert e + s + e == s;
    StripPadded(e, s, e, PyWhitespace);
    UnfenceFenced(body);
  }

  /** Both markers come off a fenced block, and nothing else. */
  lemma UnfenceFenced(body: string)
    ensures Unfence("```json" + body + "```") == body
  {
    var s := "```json" + body + "```";
    assert StartsWith(s, "```json");
    var t := s[7..];
    assert t == body + "```";
    assert EndsWith(t, "```");
    assert t[..|t| - 3] == body;
  }

  /** A reply with neither marker, after stripping, is only stripped. */
  lemma CleanReplyUnfenced(response: string)
    requires !StartsWith(PyStrip(response), "```json")
    requires !EndsWith(PyStrip(response), "```")
    ensures CleanReply(response) == PyStrip(response)
  {
    StripIdempotent(response, PyWhitespace);
  }

  /** The cleaning as `process_ai_edit` performs it, reassigning the text step by step. */
  method CleanResponse(response: string) returns (text: string)
    ensures text == CleanReply(response)
    ensures Trimmed(text, PyWhitespace)
  {
    text := PyStrip(response);
    if StartsWith(text, "```json") {
      text := text[7..];
    }
    if EndsWith(text, "```") {
      text := text[..|text| - 3];
    }
    text := PyStrip(text);
    CleanReplyTrimmed(response);
  }

  // ---------------------------------------------------------------- process_ai_edit

  /** The two environment variables the key is read from. */
  datatype Env = Env(googleApiKey: Option<string>, emergentLlmKey: Option<string>)

  /** `GOOGLE_API_KEY or EMERGENT_LLM_KEY`, `None` when the result is missing or empty. */
  function ApiKey(env: Env): (key: Option<string>)
    ensures key.Some? ==> key.value != ""
    ensures key.Some? ==> key == env.googleApiKey || key == env.emergentLlmKey
    ensures env.googleApiKey.Some? && env.googleApiKey.value != "" ==> key == env.googleApiKey
    ensures ((env.googleApiKey.None? || env.googleApiKey.value == "")
             && env.emergentLlmKey.Some? && env.emergentLlmKey.value != "") ==> key == env.emergentLlmKey
    ensures key.None? <==>
      (env.googleApiKey.None? || env.googleApiKey.value == "") &&
      (env.emergentLlmKey.None? || env.emergentLlmKey.value == "")
  {
    if env.googleApiKey.Some? && env.googleApiKey.value != "" then env.googleApiKey
    else if env.emergentLlmKey.Some? && env.emergentLlmKey.value != "" then env.emergentLlmKey
    else None
  }

  /** The chat model a key selects. */
  datatype LlmModel = Gemini20Flash | Gpt4o

  /** A key of the Google form ("AIza...") selects Gemini; any other key goes through the Emergent gateway to GPT-4o. */
  function ModelFor(key: string): (m: LlmModel)
    ensures m == Gemini20Flash <==> StartsWith(key, "AIza")
  {
    if StartsWith(key, "AIza") then Gemini20Flash else Gpt4o
  }

  /** What the chat call produced: the reply text, or an exception raised while building or sending it. */
  datatype ChatReply = Replied(text: string) | ChatFailed(reason: string)

  /** Why `process_ai_edit` hands back its input: the three fallback paths. */
  predicate FallsBack(doc: Json, prompt: string, env: Env,
                      chat: (LlmModel, Json, string) -> ChatReply, decode: string -> Option<Json>)
  {
    || ApiKey(env).None?
    || chat(ModelFor(ApiKey(env).value), doc, prompt).ChatFailed?
    || decode(CleanReply(chat(ModelFor(ApiKey(env).value), doc, prompt).text)).None?
  }

  /**
   * `process_ai_edit`: the decoded reply of the model, or the input document when there
   * is no key (the raised HTTPException is caught by the outer handler), when the chat
   * call fails, or when the cleaned reply is not JSON.
   */
  function ProcessAiEdit(doc: Json, prompt: string, env: Env,
                         chat: (LlmModel, Json, string) -> ChatReply, decode: string -> Option<Json>): (r: Json)
    ensures FallsBack(doc, prompt, env, chat, decode) ==> r == doc
    ensures !FallsBack(doc, prompt, env, chat, decode) ==>
      Some(r) == decode(CleanReply(chat(ModelFor(ApiKey(env).value), doc, prompt).text))
  {
    match ApiKey(env)
    case None => doc
    case Some(key) =>
      match chat(ModelFor(key), doc, prompt)
      case ChatFailed(_) => doc
      case Replied(text) =>
        match decode(CleanReply(text))
        case Some(modified) => modified
        case None => doc
  }

  // ---------------------------------------------------------------- the edit endpoint

  /** The body of POST /api/animations/edit. */
  datatype EditRequest = EditRequest(animationData: Json, prompt: string, animationId: string)

  /** The response body. */
  datatype EditResponse = EditResponse(success: bool, animationData: Json, message: string)

  const EditedMessage := "Animation edited successfully"
  const FailedPrefix := "Failed to edit animation: "

  /**
   * `edit_animation_with_ai`. `process_ai_edit` never raises, so the only exception left
   * is the response model rejecting a decoded reply that is not a dict; `validationError`
   * is that exception's text. The database write-back is not modelled and cannot change
   * the response, since its own failure is caught.
   */
  function EditAnimationWithAi(req: EditRequest, env: Env, chat: (LlmModel, Json, string) -> ChatReply,
                               decode: string -> Option<Json>, validationError: string): (resp: EditResponse)
    requires req.animationData.Obj?
    ensures resp.animationData.Obj?
    ensures resp.success <==> ProcessAiEdit(req.animationData, req.prompt, env, chat, decode).Obj?
    ensures resp.success ==>
      (resp.animationData == ProcessAiEdit(req.animationData, req.prompt, env, chat, decode)
       && resp.message == EditedMessage)
    ensures !resp.success ==>
      (resp.animationData == req.animationData && resp.message == FailedPrefix + validationError)
  {
    var modified := ProcessAiEdit(req.animationData, req.prompt, env, chat, decode);
    if modified.Obj? then EditResponse(true, modified, EditedMessage)
    else EditResponse(false, req.animationData, FailedPrefix + validationError)
  }

  /**
   * A failed edit (no key, chat error, unparsable reply) is reported as a success
   * carrying the request's own document.
   */
  lemma FailedEditReportsSuccess(req: EditRequest, env: Env, chat: (LlmModel, Json, string) -> ChatReply,
                                 decode: string -> Option<Json>, validationError: string)
    requires req.animationData.Obj?
    requires FallsBack(req.animationData, req.prompt, env, chat, decode)
    ensures EditAnimationWithAi(req, env, chat, decode, validationError)
      == EditResponse(true, req.animationData, EditedMessage)
  {
  }
}
