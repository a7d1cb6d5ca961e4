/** The assistant's chat panel: the message log, the input box and the
    loading flag that `handleSubmit` updates
    (src/components/ai/AIShoppingAssistant.js). */
module ChatAssistant {
  import opened Seqs
  import opened Text
  import opened Catalog
  import opened AssistantRoute

  const Greeting := "Welcome to Artisan Haven! Ask me to find products, get gift ideas, or describe what you're looking for."
  const Apology := "I'm sorry, I'm having trouble connecting right now."

  /** How the request to the route ended: an OK response with its JSON body
      (`reply`, and `products` when present), or a failed or non-OK one. */
  datatype FetchOutcome = Replied(reply: string, products: Option<seq<Product>>) | Failed

  /** What the client sees of a route response: any error status is a
      failure; a reply passes its text and products through. */
  function OutcomeOf(resp: Response): (o: FetchOutcome)
    ensures o.Failed? <==> resp.Failure?
    ensures o.Replied? ==> o.reply == resp.reply && o.products == resp.products
  {
    match resp
    case Failure(_, _) => Failed
    case Reply(text, products) => Replied(text, products)
  }

  /** The assistant message appended when the request settles. */
  function ReplyMessage(outcome: FetchOutcome): (m: ChatMessage)
    ensures m.role == "assistant"
    ensures outcome.Replied? ==> m.content == outcome.reply && m.products.Some?
    ensures outcome.Replied? && outcome.products.Some? ==> m.products == outcome.products
    ensures outcome.Replied? && outcome.products.None? ==> m.products == Some([])
    ensures outcome.Failed? ==> m.content == Apology && m.products.None?
  {
    match outcome
    case Replied(text, products) =>
      ChatMessage("assistant", text, Some(if products.Some? then products.value else []))
    case Failed => ChatMessage("assistant", Apology, None)
  }

  /** A submission is accepted when the input is not blank and no request
      is in flight. */
  predicate Accepts(input: string, loading: bool) {
    Trim(input) != "" && !loading
  }

  class ChatPanel {
    var messages: seq<ChatMessage>
    var input: string
    var loading: bool

    /** The log opens with the greeting alone. */
    constructor ()
      ensures messages == [ChatMessage("assistant", Greeting, None)]
      ensures input == "" && !loading
    {
      messages := [ChatMessage("assistant", Greeting, None)];
      input := "";
      loading := false;
    }

    /** The input box's `onChange`. */
    method SetInput(text: string)
      modifies this`input
      ensures input == text
    {
      input := text;
    }

    /** The synchronous part of `handleSubmit`. When accepted, appends the
        user's message (untrimmed), clears the input, sets loading, and
        returns the log sent as the request body. */
    method BeginSubmit() returns (accepted: bool, body: seq<ChatMessage>)
      modifies this
      ensures accepted <==> Accepts(old(input), old(loading))
      ensures !accepted ==> messages == old(messages) && input == old(input) && loading == old(loading)
      ensures accepted ==> messages == old(messages) + [ChatMessage("user", old(input), None)]
      ensures accepted ==> input == "" && loading && body == messages
    {
      accepted := Accepts(input, loading);
      if !accepted {
        body := [];
        return;
      }
      messages := messages + [ChatMessage("user", input, None)];
      body := messages;
      input := "";
      loading := true;
    }

    /** The settling part: one reply or the apology appended, and loading
        cleared in `finally`. */
    method FinishSubmit(outcome: FetchOutcome)
      modifies this`messages, this`loading
      ensures messages == old(messages) + [ReplyMessage(outcome)]
      ensures !loading
    {
      messages := messages + [ReplyMessage(outcome)];
      loading := false;
    }

    /** A whole submission, with no other event in between. */
    method HandleSubmit(outcome: FetchOutcome) returns (accepted: bool)
      modifies this
      ensures accepted <==> Accepts(old(input), old(loading))
      ensures !accepted ==> messages == old(messages) && input == old(input) && loading == old(loading)
      ensures accepted ==>
        && messages == old(messages) + [ChatMessage("user", old(input), None), ReplyMessage(outcome)]
        && |messages| == |old(messages)| + 2
        && input == "" && !loading
    {
      var body;
      accepted, body := BeginSubmit();
      if accepted {
        FinishSubmit(outcome);
      }
    }
  }
}
