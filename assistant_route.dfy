/** The shopping assistant's route handler: the chat history handed to the
    language model, the local product search it may call as a tool, and the
    shape of the reply (src/app/api/ai/assistant/route.ts). The language
    model and the document store are inputs. */
module AssistantRoute {
  import opened Seqs
  import opened Text
  import opened Catalog

  const MaxResults: nat := 3
  const MissingKeyError := "Server configuration error: Missing API Key."
  const AssistantError := "Failed to get a response from the AI."

  /** A message of the client's chat log: role 'user' or 'assistant', its
      text, and (on assistant replies) the products shown with it. */
  datatype ChatMessage = ChatMessage(role: string, content: string, products: Option<seq<Product>>)

  /** One history entry for the language model: `{ role, parts: [{ text }] }`. */
  datatype HistoryEntry = HistoryEntry(role: string, text: string)

  /** The tool call the model may ask for first. */
  datatype FunctionCall = FunctionCall(name: string, query: string)

  /** What the model answers to one message: text and any tool calls. */
  datatype ModelTurn = ModelTurn(text: string, calls: seq<FunctionCall>)

  /** What the handler hands the model: the history and the new message. */
  datatype ChatRequest = ChatRequest(history: seq<HistoryEntry>, message: string)

  /** The JSON response: an error with its status, or a reply that carries
      `products` only after a product search. */
  datatype Response = Failure(status: int, error: string) | Reply(reply: string, products: Option<seq<Product>>)

  /** The tool's test: the lowercased query occurs in the lowercased name,
      description or category (a product without a category has no third
      chance). */
  predicate MatchesQuery(p: Product, lowerQuery: string) {
    || Includes(Lower(p.name), lowerQuery)
    || Includes(Lower(p.description), lowerQuery)
    || (p.category.Some? && Includes(Lower(p.category.value), lowerQuery))
  }

  function VerifiedTest(): Product -> bool {
    (p: Product) => p.isVerified
  }

  function QueryTest(lowerQuery: string): Product -> bool {
    (p: Product) => MatchesQuery(p, lowerQuery)
  }

  /** Every match among the verified products, in store order. */
  function AllMatches(store: seq<Product>, query: string): seq<Product> {
    Filter(Filter(store, VerifiedTest()), QueryTest(Lower(query)))
  }

  /** `searchProducts(query)`: the verified products matching the query,
      the first three of them. */
  function SearchProducts(store: seq<Product>, query: string): (r: seq<Product>)
    ensures |r| <= MaxResults
    ensures forall p :: p in r ==> p in store && p.isVerified && MatchesQuery(p, Lower(query))
    ensures forall p :: p in r && p.category.None? ==>
      Includes(Lower(p.name), Lower(query)) || Includes(Lower(p.description), Lower(query))
    ensures r <= AllMatches(store, query)
    ensures |r| == if |AllMatches(store, query)| < MaxResults then |AllMatches(store, query)| else MaxResults
  {
    var matches := AllMatches(store, query);
    var r := JsSlice(matches, 0, MaxResults);
    assert r == matches[..|r|];
    assert forall p :: p in r ==> p in matches;
    r
  }

  /** The model's name for a chat role. */
  function ModelRole(role: string): string {
    if role == "assistant" then "model" else "user"
  }

  function Entry(m: ChatMessage): HistoryEntry {
    HistoryEntry(ModelRole(m.role), m.content)
  }

  /** `history` is every message but the last, each keeping its text, with
      'assistant' as 'model' and any other role as 'user', less exactly one
      leading entry when the first of them was the assistant's. */
  predicate IsHistoryOf(history: seq<HistoryEntry>, messages: seq<ChatMessage>) {
    var skip := if |messages| >= 2 && messages[0].role == "assistant" then 1 else 0;
    && |history| == (if messages == [] then 0 else |messages| - 1 - skip)
    && forall i :: 0 <= i < |history| ==>
      && history[i].text == messages[i + skip].content
      && (history[i].role == "model" <==> messages[i + skip].role == "assistant")
      && (history[i].role != "model" ==> history[i].role == "user")
  }

  /** The history: every message but the last, mapped to model roles, then
      one leading 'model' entry (the greeting) shifted off. */
  method BuildHistory(messages: seq<ChatMessage>) returns (history: seq<HistoryEntry>)
    ensures IsHistoryOf(history, messages)
  {
    var mapped := seq(|messages|, i requires 0 <= i < |messages| => Entry(messages[i]));
    history := JsSlice(mapped, 0, -1);
    if |history| > 0 && history[0].role == "model" {
      history := history[1..];
    }
  }

  /** `POST /api/ai/assistant`. `keySet` says whether the API key is
      configured; `store` is the product collection (None: the query
      failed); `first` is the model's answer to the user message and
      `second` its answer to the search results (None: the call failed).
      Also returns what was handed to the model, if anything. */
  method Post(keySet: bool, messages: seq<ChatMessage>, store: Option<seq<Product>>,
              first: Option<ModelTurn>, second: Option<string>)
    returns (resp: Response, sent: Option<ChatRequest>)
    ensures !keySet ==> resp == Failure(500, MissingKeyError) && sent == None
    ensures keySet && messages == [] ==> resp == Failure(500, AssistantError) && sent == None
    ensures keySet && messages != [] ==> sent.Some? && sent.value.message == messages[|messages| - 1].content
    ensures sent.Some? ==> IsHistoryOf(sent.value.history, messages)
    ensures resp.Failure? ==> resp.status == 500
    ensures resp.Reply? <==> (keySet && messages != [] && first.Some?
      && (first.value.calls != [] && first.value.calls[0].name == "searchProducts" ==> store.Some? && second.Some?))
    ensures resp.Reply? && resp.products.Some? <==> resp.Reply? && first.value.calls != [] && first.value.calls[0].name == "searchProducts"
    ensures resp.Reply? && resp.products.Some? ==>
      resp.products.value == SearchProducts(store.value, first.value.calls[0].query) && resp.reply == second.value
    ensures resp.Reply? && resp.products.None? ==> resp.reply == first.value.text
  {
    if !keySet {
      return Failure(500, MissingKeyError), None;
    }
    if messages == [] {
      // `messages[messages.length - 1].content` throws inside the try block.
      return Failure(500, AssistantError), None;
    }
    var history := BuildHistory(messages);
    var userMessage := messages[|messages| - 1].content;
    sent := Some(ChatRequest(history, userMessage));
    if first.None? {
      return Failure(500, AssistantError), sent;
    }
    var turn := first.value;
    if turn.calls != [] && turn.calls[0].name == "searchProducts" {
      if store.None? || second.None? {
        return Failure(500, AssistantError), sent;
      }
      var products := SearchProducts(store.value, turn.calls[0].query);
      return Reply(second.value, Some(products)), sent;
    }
    resp := Reply(turn.text, None);
  }
}
