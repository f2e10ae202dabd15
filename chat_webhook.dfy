/** The inbound chat webhook (`POST /api/webhook`): an incoming WhatsApp
    message is answered with a keyword-chosen reply, sent back to the sender
    through the Fonnte client. A failed send is swallowed. */
module ChatWebhook {
  import opened Common
  import opened Strings
  import Fonnte

  /** The fields of the gateway's callback that the handler reads. `message`
      is `None` when the JSON body has no such field. */
  datatype WebhookData = WebhookData(device: string, sender: string, message: Option<string>, name: Option<string>)

  /** The four replies, with what each one embeds. */
  datatype Reply = Greeting(who: string) | Menu | ProductList | Echo(original: string)

  datatype Response = Response(code: nat, success: bool, text: string, reply: Option<string>)

  function Received(reply: string): Response {
    Response(200, true, "Webhook received successfully", Some(reply))
  }

  const ProcessingFailed := Response(500, false, "Failed to process webhook", None)

  /** What `message.toLowerCase()` throws when the body has no `message`. */
  const MissingMessage := Error("Cannot read properties of undefined (reading 'toLowerCase')")

  /** The body of `processMessage` up to the send: keyword tests on the
      lower-cased message, first match wins. */
  function ChooseReply(message: string, name: Option<string>, sender: string): Reply {
    var text := Lower(message);
    if Contains(text, "halo") || Contains(text, "hi") then Greeting(OrElse(name, sender))
    else if Contains(text, "help") || Contains(text, "bantuan") then Menu
    else if Contains(text, "produk") then ProductList
    else Echo(message)
  }

  function ReplyText(r: Reply): string {
    match r
    case Greeting(who) => "Halo " + who + "! \U{1F44B} Gimana kabarnya?"
    case Menu =>
      "Aku bisa bantu kamu dengan:\n\U{2022} Info produk\n\U{2022} Customer service\n\U{2022} Pertanyaan umum\n\nKetik aja yang kamu butuhin!"
    case ProductList =>
      "\U{1F4E6} Produk kami:\n\U{2022} Produk A - Rp 100.000\n\U{2022} Produk B - Rp 150.000\n\U{2022} Produk C - Rp 200.000\n\nMau tau lebih detail yang mana?"
    case Echo(original) =>
      "Terima kasih pesannya: \"" + original + "\"\n\nAku sedang belajar jadi maaf kalo belum bisa jawab dengan baik. Coba ketik \"help\" untuk bantuan! \U{1F916}"
  }

  /** The lower-cased message has `word` somewhere in it. */
  ghost predicate Mentions(message: string, word: string) {
    exists i: nat :: OccursAt(Lower(message), word, i)
  }

  /** The keyword precedence, stated over occurrences: greeting words first,
      then the help words, then `produk`, then the echo of the message as
      it was written. The greeting names the sender when `name` is missing
      or empty. */
  lemma ReplyPrecedence(message: string, name: Option<string>, sender: string)
    ensures var r := ChooseReply(message, name, sender);
      && (Mentions(message, "halo") || Mentions(message, "hi") <==> r.Greeting?)
      && (r.Greeting? ==> r.who == (if Truthy(name) then name.value else sender))
      && (r.Menu? <==> !r.Greeting? && (Mentions(message, "help") || Mentions(message, "bantuan")))
      && (r.ProductList? <==> !r.Greeting? && !r.Menu? && Mentions(message, "produk"))
      && (r.Echo? ==> r.original == message)
  {
    var text := Lower(message);
    ContainsIff(text, "halo");
    ContainsIff(text, "hi");
    ContainsIff(text, "help");
    ContainsIff(text, "bantuan");
    ContainsIff(text, "produk");
  }

  /** Only the lower-cased text decides the kind of reply, so the tests
      ignore ASCII case. */
  lemma ReplyIgnoresCase(m1: string, m2: string, name: Option<string>, sender: string)
    requires Lower(m1) == Lower(m2)
    ensures ChooseReply(m1, name, sender).Echo? == ChooseReply(m2, name, sender).Echo?
    ensures !ChooseReply(m1, name, sender).Echo? ==> ChooseReply(m1, name, sender) == ChooseReply(m2, name, sender)
  {
  }

  /** `hi` is a substring test: a message with `hi` anywhere in it, inside
      a word or next to other keywords, gets the greeting. */
  lemma GreetingWinsInsideWords(before: string, after: string, name: Option<string>, sender: string)
    ensures ChooseReply(before + "hi" + after, name, sender) == Greeting(OrElse(name, sender))
  {
    LowerConcat(before + "hi", after);
    LowerConcat(before, "hi");
    assert Lower("hi") == "hi";
    ContainsInfix(Lower(before), "hi", Lower(after));
  }

  /** "this produk" gets the greeting, not the product list. */
  lemma ThisProdukIsGreeted(sender: string)
    ensures ChooseReply("this produk", None, sender) == Greeting(sender)
  {
    assert ChooseReply("t" + "hi" + "s produk", None, sender) == Greeting(sender) by {
      GreetingWinsInsideWords("t", "s produk", None, sender);
    }
    assert "t" + "hi" + "s produk" == "this produk";
  }

  /** The echo quotes the message exactly as it came, case included. */
  lemma EchoQuotesOriginal(message: string)
    ensures Contains(ReplyText(Echo(message)), message)
  {
    var before := "Terima kasih pesannya: \"";
    var after := "\"\n\nAku sedang belajar jadi maaf kalo belum bisa jawab dengan baik. Coba ketik \"help\" untuk bantuan! \U{1F916}";
    assert ReplyText(Echo(message)) == before + message + after;
    ContainsInfix(before, message, after);
  }

  /** `processMessage`: choose the reply, then try once to send it to the
      sender. Building the client and sending may both throw; either way
      the reply is returned. */
  method ProcessMessage(data: WebhookData, token: Option<string>, device: Option<string>, script: seq<Fonnte.Outcome>)
    returns (r: Result<string, Exception>, requests: seq<Fonnte.Request>)
    ensures data.message.None? ==> r == Failure(MissingMessage) && requests == []
    ensures data.message.Some? ==>
      var reply := ReplyText(ChooseReply(data.message.value, data.name, data.sender));
      && r == Success(reply)
      && requests == if Truthy(token)
                     then [Fonnte.JsonRequest(token.value, Fonnte.MessagePayload(device, Fonnte.MessageParams(data.sender, reply, None)))]
                     else []
  {
    requests := [];
    if data.message.None? {
      return Failure(MissingMessage), requests;
    }
    var reply := ReplyText(ChooseReply(data.message.value, data.name, data.sender));
    var created := Fonnte.CreateFonnteApi(token, device, script);
    if created.Success? {
      var api := created.value;
      var sent := api.SendMessage(Fonnte.MessageParams(data.sender, reply, None));
      requests := api.requests;
    }
    r := Success(reply);
  }

  /** `POST`: 200 with the reply whatever became of the send; 500 when the
      body does not parse or the message cannot be read. */
  method Post(body: Parse<WebhookData>, token: Option<string>, device: Option<string>, script: seq<Fonnte.Outcome>)
    returns (resp: Response, requests: seq<Fonnte.Request>)
    ensures body.Unparsable? || body.value.message.None? ==> resp == ProcessingFailed && requests == []
    ensures body.Parsed? && body.value.message.Some? ==>
      var data := body.value;
      var reply := ReplyText(ChooseReply(data.message.value, data.name, data.sender));
      && resp == Received(reply)
      && |requests| == (if Truthy(token) then 1 else 0)
      && (Truthy(token) ==>
            requests[0].authorization == token.value
            && Fonnte.Lookup(requests[0].body.fields, "target") == Some(data.sender)
            && Fonnte.Lookup(requests[0].body.fields, "message") == Some(reply))
  {
    if body.Unparsable? {
      return ProcessingFailed, [];
    }
    var r;
    r, requests := ProcessMessage(body.value, token, device, script);
    if r.Failure? {
      return ProcessingFailed, requests;
    }
    resp := Received(r.value);
    if Truthy(token) {
      var data := body.value;
      Fonnte.MessagePayloadFields(device, Fonnte.MessageParams(data.sender, r.value, None));
    }
  }
}
