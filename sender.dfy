/**
 * Delivery to the Telegram Bot API. The HTTP session is not modelled: each
 * POST ends in an `Outcome`, and `outcomes[k]` is what attempt `k` would get.
 * `time.sleep` is recorded as the list of delays slept.
 */
module Sender {
  import opened Wrappers
  import opened PyValues
  import opened Utf8

  /** How one POST ends. */
  datatype Outcome =
    | Reply(ok: bool)    // a JSON reply; `ok` is the truthiness of its "ok" field
    | SslError           // requests.exceptions.SSLError
    | ConnectionError    // requests.exceptions.ConnectionError
    | Timeout            // requests.exceptions.Timeout
    | RequestError       // any other requests.RequestException
    | OtherError         // any other exception

  /** The exception classes `_make_request` retries. */
  predicate Transient(o: Outcome) {
    o.SslError? || o.ConnectionError? || o.Timeout? || o.RequestError?
  }

  const MaxManualRetries: nat := 2

  function Pow2(k: nat): (p: nat)
    ensures p >= 1
  {
    if k == 0 then 1 else 2 * Pow2(k - 1)
  }

  /** The result of `_make_request`, the number of POSTs made and the delays slept, in order. */
  datatype Delivery = Delivery(sent: bool, attempts: nat, sleeps: seq<nat>)

  /** The retry loop of `_make_request` from attempt `attempt` on. */
  function Deliver(outcomes: seq<Outcome>, attempt: nat): (d: Delivery)
    requires attempt <= MaxManualRetries < |outcomes|
    ensures 1 <= d.attempts <= MaxManualRetries + 1 - attempt
    ensures |d.sleeps| == d.attempts - 1
    decreases MaxManualRetries - attempt
  {
    var o := outcomes[attempt];
    if o.Reply? then Delivery(o.ok, 1, [])
    else if Transient(o) && attempt < MaxManualRetries then
      var rest := Deliver(outcomes, attempt + 1);
      Delivery(rest.sent, rest.attempts + 1, [Pow2(attempt)] + rest.sleeps)
    else Delivery(false, 1, [])
  }

  /**
   * The shape of every run of the loop: the k-th sleep lasts 2^k seconds,
   * every attempt but the last failed in a way that is retried, and success
   * means the last attempt got an ok reply.
   */
  lemma {:induction false} DeliverShape(outcomes: seq<Outcome>, attempt: nat)
    requires attempt <= MaxManualRetries < |outcomes|
    ensures var d := Deliver(outcomes, attempt);
      (forall i | 0 <= i < |d.sleeps| :: d.sleeps[i] == Pow2(attempt + i)) &&
      (d.sent ==> outcomes[attempt + d.attempts - 1] == Reply(true)) &&
      (forall i | attempt <= i < attempt + d.attempts - 1 :: Transient(outcomes[i]))
    decreases MaxManualRetries - attempt
  {
    var o := outcomes[attempt];
    if !o.Reply? && Transient(o) && attempt < MaxManualRetries {
      DeliverShape(outcomes, attempt + 1);
      var rest := Deliver(outcomes, attempt + 1);
      var d := Deliver(outcomes, attempt);
      assert d.sleeps == [Pow2(attempt)] + rest.sleeps;
      assert forall i | 1 <= i < |d.sleeps| :: d.sleeps[i] == rest.sleeps[i - 1];
    }
  }

  /** One turn of the loop: how the run from `attempt` on extends the run from `attempt + 1` on. */
  lemma DeliverStep(outcomes: seq<Outcome>, attempt: nat, done: seq<nat>)
    requires attempt <= MaxManualRetries < |outcomes|
    ensures var d := Deliver(outcomes, attempt); var o := outcomes[attempt];
      if o.Reply? then d == Delivery(o.ok, 1, [])
      else if Transient(o) && attempt < MaxManualRetries then
        var rest := Deliver(outcomes, attempt + 1);
        d.sent == rest.sent && d.attempts == rest.attempts + 1 &&
        done + d.sleeps == (done + [Pow2(attempt)]) + rest.sleeps
      else d == Delivery(false, 1, [])
  {
    var o := outcomes[attempt];
    if !o.Reply? && Transient(o) && attempt < MaxManualRetries {
      var rest := Deliver(outcomes, attempt + 1);
      assert done + ([Pow2(attempt)] + rest.sleeps) == (done + [Pow2(attempt)]) + rest.sleeps;
    }
  }

  /** The `for attempt in range(max_manual_retries + 1)` loop of `_make_request`. */
  method MakeRequest(outcomes: seq<Outcome>) returns (sent: bool, attempts: nat, sleeps: seq<nat>)
    requires |outcomes| > MaxManualRetries
    ensures Delivery(sent, attempts, sleeps) == Deliver(outcomes, 0)
  {
    ghost var total := Deliver(outcomes, 0);
    attempts := 0;
    sleeps := [];
    var attempt := 0;
    while attempt < MaxManualRetries + 1
      invariant attempt <= MaxManualRetries && attempts == attempt && |sleeps| == attempt
      invariant var rest := Deliver(outcomes, attempt);
        total == Delivery(rest.sent, attempts + rest.attempts, sleeps + rest.sleeps)
      decreases MaxManualRetries - attempt
    {
      var o := outcomes[attempt];
      DeliverStep(outcomes, attempt, sleeps);
      attempts := attempts + 1;
      if o.Reply? {
        assert sleeps + [] == sleeps;
        return o.ok, attempts, sleeps;
      } else if Transient(o) && attempt < MaxManualRetries {
        sleeps := sleeps + [Pow2(attempt)];
        attempt := attempt + 1;
      } else {
        assert sleeps + [] == sleeps;
        return false, attempts, sleeps;
      }
    }
    sent := false;
  }

  /** The first reply ends the loop, with its own verdict. */
  lemma FirstReplyDecides(outcomes: seq<Outcome>)
    requires |outcomes| > MaxManualRetries && outcomes[0].Reply?
    ensures Deliver(outcomes, 0) == Delivery(outcomes[0].ok, 1, [])
  {
  }

  /** An exception outside the requests family is not retried. */
  lemma OtherErrorStops(outcomes: seq<Outcome>)
    requires |outcomes| > MaxManualRetries && outcomes[0] == OtherError
    ensures Deliver(outcomes, 0) == Delivery(false, 1, [])
  {
  }

  /** Three transport failures in a row: three POSTs, waits of 1 s and 2 s, then False. */
  lemma AllTransientFails(outcomes: seq<Outcome>)
    requires |outcomes| > MaxManualRetries
    requires Transient(outcomes[0]) && Transient(outcomes[1]) && Transient(outcomes[2])
    ensures Deliver(outcomes, 0) == Delivery(false, 3, [1, 2])
  {
    assert Deliver(outcomes, 2) == Delivery(false, 1, []);
    assert Deliver(outcomes, 1) == Delivery(false, 2, [2]);
  }

  /**
   * Delivery succeeds exactly when some attempt gets an ok reply and every
   * attempt before it failed in a way that is retried.
   */
  lemma {:induction false} SentIff(outcomes: seq<Outcome>, attempt: nat)
    requires attempt <= MaxManualRetries < |outcomes|
    ensures Deliver(outcomes, attempt).sent <==>
      exists k | attempt <= k <= MaxManualRetries ::
        outcomes[k] == Reply(true) && forall j | attempt <= j < k :: Transient(outcomes[j])
    decreases MaxManualRetries - attempt
  {
    var d := Deliver(outcomes, attempt);
    DeliverShape(outcomes, attempt);
    if d.sent {
      var k := attempt + d.attempts - 1;
      assert outcomes[k] == Reply(true) && forall j | attempt <= j < k :: Transient(outcomes[j]);
    }
    if exists k | attempt <= k <= MaxManualRetries ::
        outcomes[k] == Reply(true) && forall j | attempt <= j < k :: Transient(outcomes[j]) {
      var k :| attempt <= k <= MaxManualRetries &&
        outcomes[k] == Reply(true) && forall j | attempt <= j < k :: Transient(outcomes[j]);
      if k > attempt {
        assert Transient(outcomes[attempt]);
        SentIff(outcomes, attempt + 1);
        assert attempt + 1 <= k;
      }
    }
  }

  // ---------------------------------------------------------------- requests

  /** A form field: a value sent as it is, or the `json.dumps` text of a value. */
  datatype FormValue = Field(v: Value) | JsonText(of: Value)

  datatype Upload = Upload(filename: string, bytes: seq<byte>)

  /** One Bot API call: its method name, its form data and the uploaded document, if any. */
  datatype Request = Request(apiMethod: string, data: map<string, FormValue>, document: Option<Upload>)

  const DocumentName := "message.txt"
  const CaptionSuffix := " [消息过长，以文件形式发送]"

  /** `reply_markup` is in the form data, as the JSON of the keyboard, exactly when a keyboard is given. */
  predicate MarkupField(data: map<string, FormValue>, replyMarkup: Option<Value>) {
    ("reply_markup" in data <==> replyMarkup.Some?) &&
    (replyMarkup.Some? ==> data["reply_markup"] == JsonText(replyMarkup.value))
  }

  /** The request of `send_text_message(message, reply_markup)` for chat `chatId`. */
  predicate TextRequestFor(req: Request, chatId: Value, message: string, replyMarkup: Option<Value>) {
    req.apiMethod == "sendMessage" && req.document.None? &&
    req.data.Keys == {"chat_id", "text"} + (if replyMarkup.Some? then {"reply_markup"} else {}) &&
    req.data["chat_id"] == Field(chatId) && req.data["text"] == Field(Str(message)) &&
    MarkupField(req.data, replyMarkup)
  }

  /**
   * The request of `send_document(title, content, reply_markup)` for chat `chatId`:
   * the content as the UTF-8 file `message.txt`, captioned by the title and the suffix.
   */
  predicate DocumentRequestFor(req: Request, chatId: Value, title: string, content: string, replyMarkup: Option<Value>) {
    req.apiMethod == "sendDocument" &&
    req.document == Some(Upload(DocumentName, Encode(content))) &&
    req.data.Keys == {"chat_id", "caption"} + (if replyMarkup.Some? then {"reply_markup"} else {}) &&
    req.data["chat_id"] == Field(chatId) &&
    req.data["caption"].Field? && req.data["caption"].v.Str? &&
    (var caption := req.data["caption"].v.s;
     |caption| == |title| + |CaptionSuffix| && caption[..|title|] == title && caption[|title|..] == CaptionSuffix) &&
    MarkupField(req.data, replyMarkup)
  }

  /** The request `send_text_message` builds. */
  method TextMessageRequest(chatId: Value, message: string, replyMarkup: Option<Value>) returns (req: Request)
    ensures TextRequestFor(req, chatId, message, replyMarkup)
  {
    var data := map["chat_id" := Field(chatId), "text" := Field(Str(message))];
    if replyMarkup.Some? {
      data := data["reply_markup" := JsonText(replyMarkup.value)];
    }
    req := Request("sendMessage", data, None);
  }

  /** The request `send_document` builds: the content travels as a UTF-8 file. */
  method DocumentRequest(chatId: Value, title: string, content: string, replyMarkup: Option<Value>)
    returns (req: Request)
    ensures DocumentRequestFor(req, chatId, title, content, replyMarkup)
    ensures Decode(req.document.value.bytes) == Some(content)
  {
    var upload := Upload(DocumentName, Encode(content));
    DecodeEncode(content);
    var caption := title + CaptionSuffix;
    assert caption[..|title|] == title && caption[|title|..] == CaptionSuffix;
    var data := map["chat_id" := Field(chatId), "caption" := Field(Str(caption))];
    if replyMarkup.Some? {
      data := data["reply_markup" := JsonText(replyMarkup.value)];
    }
    req := Request("sendDocument", data, Some(upload));
  }

  /** `send_text_message`: build the request, then run the retry loop on it. */
  method SendTextMessage(outcomes: seq<Outcome>, chatId: Value, message: string, replyMarkup: Option<Value>)
    returns (sent: bool, req: Request)
    requires |outcomes| > MaxManualRetries
    ensures sent == Deliver(outcomes, 0).sent
    ensures TextRequestFor(req, chatId, message, replyMarkup)
  {
    req := TextMessageRequest(chatId, message, replyMarkup);
    var attempts, sleeps;
    sent, attempts, sleeps := MakeRequest(outcomes);
  }

  /** `send_document`: build the request, then run the retry loop on it. */
  method SendDocument(outcomes: seq<Outcome>, chatId: Value, title: string, content: string, replyMarkup: Option<Value>)
    returns (sent: bool, req: Request)
    requires |outcomes| > MaxManualRetries
    ensures sent == Deliver(outcomes, 0).sent
    ensures DocumentRequestFor(req, chatId, title, content, replyMarkup)
    ensures Decode(req.document.value.bytes) == Some(content)
  {
    req := DocumentRequest(chatId, title, content, replyMarkup);
    var attempts, sleeps;
    sent, attempts, sleeps := MakeRequest(outcomes);
  }
}
