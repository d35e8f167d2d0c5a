/**
 * The OpenAI chat client of `src/models/gpt.js`: constructor defaults, the
 * o1-model test, and `sendRequest`, which reshapes the caller's `messages`
 * list in place before the request. The request body holds a reference to that
 * same list. The HTTP call itself is an input (`ApiReply`).
 */
module Gpt {
  import opened Text
  import Keys

  const DEFAULT_MODEL := "gpt-3.5-turbo"
  const DEFAULT_URL := "https://api.openai.com/v1"
  const CHAT_ENDPOINT := "/v1/chat/completions"
  const EMBEDDING_ENDPOINT := "/v1/embeddings"
  const O1_PREFIX := "o1-"
  const FALLBACK_REPLY := "My brain disconnected, try again."

  datatype Message = Message(role: string, content: string)

  /** The caller's message array: one object whose contents `sendRequest` rewrites. */
  class MessageList {
    var items: seq<Message>

    constructor (items: seq<Message>)
      ensures this.items == items
    {
      this.items := items;
    }
  }

  /** The request body; `messages` is the caller's list, not a copy. */
  datatype Body = Body(model: string, messages: MessageList, temperature: real, maxTokens: nat)

  /** What the SDK call or the `fetch` produced: the reply content, or any failure (thrown error, non-ok status). */
  datatype ApiReply = Completion(content: string) | Failure

  /**
   * The message list `sendRequest` sends, given the list it received. An empty
   * `systemMessage` stands for every falsy value.
   */
  function Shaped(messages: seq<Message>, systemMessage: string, o1: bool): (r: seq<Message>)
    // no system message: the list is left alone
    ensures systemMessage == "" ==> r == messages
    // ordinary models: one more element, a system message in front, the old ones after it
    ensures systemMessage != "" && !o1 ==>
      |r| == |messages| + 1 && r[0] == Message("system", systemMessage)
      && forall k :: 0 <= k < |messages| ==> r[k + 1] == messages[k]
    // o1 models with a leading user message: same length, the system text merged into it
    ensures systemMessage != "" && o1 && |messages| > 0 && messages[0].role == "user" ==>
      |r| == |messages| && r[0].role == "user"
      && r[0].content == systemMessage + "\n\n" + messages[0].content
      && forall k :: 1 <= k < |messages| ==> r[k] == messages[k]
    // o1 models otherwise: the system text goes in front as a user message
    ensures systemMessage != "" && o1 && (|messages| == 0 || messages[0].role != "user") ==>
      |r| == |messages| + 1 && r[0] == Message("user", systemMessage)
      && forall k :: 0 <= k < |messages| ==> r[k + 1] == messages[k]
  {
    if o1 && systemMessage != "" then
      if |messages| > 0 && messages[0].role == "user" then
        messages[0 := messages[0].(content := systemMessage + "\n\n" + messages[0].content)]
      else
        [Message("user", systemMessage)] + messages
    else if systemMessage != "" then
      [Message("system", systemMessage)] + messages
    else
      messages
  }

  /** Shaping never loses the conversation: dropping what was put in front gives the old list back. */
  lemma ShapedKeepsConversation(messages: seq<Message>, systemMessage: string, o1: bool)
    requires systemMessage != ""
    ensures var r := Shaped(messages, systemMessage, o1);
      if o1 && |messages| > 0 && messages[0].role == "user"
      then r[1..] == messages[1..] && EndsWith(r[0].content, messages[0].content)
      else r[1..] == messages
  {
    var r := Shaped(messages, systemMessage, o1);
    if o1 && |messages| > 0 && messages[0].role == "user" {
      assert r[0].content == (systemMessage + "\n\n") + messages[0].content;
    }
  }

  class GPT {
    const modelName: string
    const url: string
    const chatEndpoint: string
    const embeddingEndpoint: string
    const isO1Model: bool
    /** The key the OpenAI client is built with. */
    const apiKey: string

    /**
     * `new GPT(model_name, url)`. Building the client looks up
     * OPENAI_API_KEY with `getKey`, which throws when no key is set; the
     * requires clause stands for that.
     */
    constructor (modelName: string, url: string, keys: Keys.Store, env: Keys.Store)
      requires Keys.HasKey(keys, env, "OPENAI_API_KEY")
      ensures this.modelName == (if modelName != "" then modelName else DEFAULT_MODEL)
      ensures this.url == (if url != "" then url else DEFAULT_URL)
      ensures chatEndpoint == CHAT_ENDPOINT && embeddingEndpoint == EMBEDDING_ENDPOINT
      ensures isO1Model <==> StartsWith(this.modelName, O1_PREFIX)
      ensures apiKey != "" && Keys.GetKey(keys, env, "OPENAI_API_KEY") == Keys.Ok(apiKey)
    {
      this.modelName := if modelName != "" then modelName else DEFAULT_MODEL;
      this.url := if url != "" then url else DEFAULT_URL;
      chatEndpoint := CHAT_ENDPOINT;
      embeddingEndpoint := EMBEDDING_ENDPOINT;
      isO1Model := StartsWith(if modelName != "" then modelName else DEFAULT_MODEL, O1_PREFIX);
      Keys.HasKeyIffGetKeySucceeds(keys, env, "OPENAI_API_KEY");
      apiKey := Keys.GetKey(keys, env, "OPENAI_API_KEY").value;
    }

    /**
     * `sendRequest(messages, system_message)`: builds the body around the
     * caller's list, rewrites the list in place, and returns the reply
     * content or the fixed apology on any failure.
     */
    method SendRequest(messages: MessageList, systemMessage: string, reply: ApiReply)
      returns (answer: string, body: Body)
      modifies messages
      ensures messages.items == Shaped(old(messages.items), systemMessage, isO1Model)
      ensures body == Body(modelName, messages, 0.7, 1000)
      ensures answer == if reply.Completion? then reply.content else FALLBACK_REPLY
    {
      body := Body(modelName, messages, 0.7, 1000);
      if isO1Model && systemMessage != "" {
        if |messages.items| > 0 && messages.items[0].role == "user" {
          var first := messages.items[0];
          messages.items := messages.items[0 := first.(content := systemMessage + "\n\n" + first.content)];
        } else {
          messages.items := [Message("user", systemMessage)] + messages.items;
        }
      } else if systemMessage != "" {
        messages.items := [Message("system", systemMessage)] + messages.items;
      }
      match reply
      case Completion(content) => answer := content;
      case Failure => answer := FALLBACK_REPLY;
    }
  }
}
