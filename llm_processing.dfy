/**
 * `process_all_message_types_and_handle_errors_and_log` of backend/llm.py: it annotates
 * every data-URL image item with its parsed parts, applies a per-model custom
 * processor, and either reports an error to a per-model handler (dropping the
 * message) or logs it and keeps the message.
 */
module LlmProcessing {
  import opened Wrappers
  import opened PyStrings
  import opened JsonValue
  import opened LlmRequests

  /** The `processed_image` entry added to a data-URL image item. */
  function ProcessedImage(mimeType: string, data: string): (r: Json) {
    JObj([("mime_type", JStr(mimeType)), ("data", JStr(data))])
  }

  /** `item.get("type") == "image_url"` */
  predicate IsImageItem(item: Json) {
    DictGet(item, "type") == Ok(JStr("image_url"))
  }

  /** The inner loop body for one content item. */
  function ProcessedItem(item: Json): (r: Result<Json, PyError>)
    ensures DictGet(item, "type").Err? ==> r == Err(DictGet(item, "type").error)
    ensures DictGet(item, "type").Ok? && !IsImageItem(item) ==> r == Ok(item)
  {
    var kind :- DictGet(item, "type");
    if kind == JStr("image_url") then
      var url :- ImageUrlOf(item);
      var text :- AsString(url, "startswith");
      if StartsWith(text, "data:") then
        var parts :- DataUrlParts(text);
        Ok(JObj(Put(item.fields, "processed_image", ProcessedImage(parts.0, parts.1))))
      else
        Ok(item)
    else
      Ok(item)
  }

  /**
   * An image item whose URL is a data URL gains `processed_image` with the URL's media
   * type and payload and keeps every other key; an image item with any other URL is
   * left as it is.
   */
  lemma ProcessedImageItem(item: Json, url: string)
    requires IsImageItem(item) && ImageUrlOf(item) == Ok(JStr(url))
    ensures !StartsWith(url, "data:") ==> ProcessedItem(item) == Ok(item)
    ensures StartsWith(url, "data:") ==>
      (ProcessedItem(item).Ok? <==> DataUrlParts(url).Ok?)
      && (ProcessedItem(item).Ok? ==>
            var parts := DataUrlParts(url).value;
            var r := ProcessedItem(item).value;
            r.JObj?
            && Get(r.fields, "processed_image") == Some(ProcessedImage(parts.0, parts.1))
            && forall k :: k != "processed_image" ==> Get(r.fields, k) == Get(item.fields, k))
  {
  }

  /** `ProcessedItem` as a value, for the generic loop. */
  function ItemStep(): Json -> Result<Json, PyError> {
    item => ProcessedItem(item)
  }

  /**
   * The loop over one message's items. A failing item stops it: the items before it
   * have already been annotated in place, the failing item and those after it have not.
   */
  function ProcessItems(items: seq<Json>): (r: (seq<Json>, Option<PyError>))
    ensures |r.0| == |items|
  {
    ApplyUntilError(ItemStep(), items)
  }

  /** No error exactly when every item succeeds, and then each item is replaced by its processed form. */
  lemma ProcessItemsSucceeds(items: seq<Json>)
    ensures ProcessItems(items).1.None? <==> forall i :: 0 <= i < |items| ==> ProcessedItem(items[i]).Ok?
    ensures ProcessItems(items).1.None? ==>
      forall i :: 0 <= i < |items| ==> ProcessedItem(items[i]) == Ok(ProcessItems(items).0[i])
  {
    ApplyUntilErrorSucceeds(ItemStep(), items);
  }

  /**
   * On an error, the first failing item gives it: the items before it are processed and
   * it and the items after it are left as they were.
   */
  lemma ProcessItemsStops(items: seq<Json>)
    ensures ProcessItems(items).1.Some? ==>
      exists k :: 0 <= k < |items|
        && ProcessedItem(items[k]) == Err(ProcessItems(items).1.value)
        && (forall i :: 0 <= i < k ==> ProcessedItem(items[i]) == Ok(ProcessItems(items).0[i]))
        && ProcessItems(items).0[k..] == items[k..]
  {
    var r := ProcessItems(items);
    if r.1.Some? {
      ApplyUntilErrorStops(ItemStep(), items);
      assert FailsAt(ItemStep(), items, r);
      var k: nat :| StopsAt(ItemStep(), items, r, k);
      assert ProcessedItem(items[k]) == Err(r.1.value);
    }
  }

  /**
   * The inner loop as the source writes it: each item is replaced in place by its
   * annotated form until one raises.
   */
  method ProcessContentItems(items: seq<Json>) returns (out: seq<Json>, err: Option<PyError>)
    ensures out == ProcessItems(items).0 && err == ProcessItems(items).1
  {
    out := items;
    var i := 0;
    ApplyLoopStart(ItemStep(), items);
    while i < |items|
      invariant ApplyLoop(ItemStep(), items, out, i)
    {
      var item := ProcessedItem(items[i]);
      if item.Err? {
        ApplyLoopErr(ItemStep(), items, out, i);
        return out, Some(item.error);
      }
      ApplyLoopOk(ItemStep(), items, out, i);
      out := out[i := item.value];
      i := i + 1;
    }
    ApplyLoopDone(ItemStep(), items, out);
    return out, None;
  }

  /** The foreign per-model processors, keyed by model type. */
  type Processors = map<string, Json -> Result<Json, PyError>>

  /**
   * The `try` body for one message: the message as it stands when the body finishes or
   * raises, and the exception if it raised.
   */
  function ProcessMessage(processors: Processors, modelType: string, message: Json): (r: (Json, Option<PyError>))
    ensures DictGet(message, "content").Err? ==> r == (message, Some(DictGet(message, "content").error))
    ensures modelType !in processors ==> r.0.JObj? == message.JObj?
  {
    match DictGet(message, "content")
    case Err(e) => (message, Some(e))
    case Ok(content) =>
      var annotated :=
        if content.JList? then
          var items := ProcessItems(content.items);
          (JObj(Put(message.fields, "content", JList(items.0))), items.1)
        else
          (message, None);
      if annotated.1.Some? then annotated
      else if modelType in processors then
        match processors[modelType](annotated.0)
        case Ok(m) => (m, None)
        case Err(e) => (annotated.0, Some(e))
      else
        annotated
  }

  /** The `try` body as the source runs it, item loop included. */
  method ProcessOneMessage(processors: Processors, modelType: string, message: Json) returns (m: Json, err: Option<PyError>)
    ensures (m, err) == ProcessMessage(processors, modelType, message)
  {
    var content := DictGet(message, "content");
    if content.Err? {
      return message, Some(content.error);
    }
    m, err := message, None;
    if content.value.JList? {
      var items;
      items, err := ProcessContentItems(content.value.items);
      m := JObj(Put(message.fields, "content", JList(items)));
    }
    if err.None? && modelType in processors {
      var processed := processors[modelType](m);
      if processed.Ok? {
        m := processed.value;
      } else {
        err := Some(processed.error);
      }
    }
  }

  /** A message whose content is not a list, with no processor for the model, passes through. */
  lemma ProcessMessagePlain(processors: Processors, modelType: string, message: Json)
    requires DictGet(message, "content").Ok? && !DictGet(message, "content").value.JList?
    requires modelType !in processors
    ensures ProcessMessage(processors, modelType, message) == (message, None)
  {
  }

  /**
   * With no processor for the model, a message whose items all succeed comes out with
   * every item annotated and all its other keys unchanged.
   */
  lemma ProcessMessageItems(processors: Processors, modelType: string, message: Json)
    requires DictGet(message, "content").Ok? && DictGet(message, "content").value.JList?
    requires modelType !in processors
    requires forall i :: 0 <= i < |DictGet(message, "content").value.items| ==>
      ProcessedItem(DictGet(message, "content").value.items[i]).Ok?
    ensures var r := ProcessMessage(processors, modelType, message);
      var items := DictGet(message, "content").value.items;
      r.1.None? && r.0.JObj?
      && (forall k :: k != "content" ==> Get(r.0.fields, k) == Get(message.fields, k))
      && exists out :: Get(r.0.fields, "content") == Some(JList(out)) && |out| == |items|
           && forall i :: 0 <= i < |items| ==> ProcessedItem(items[i]) == Ok(out[i])
  {
    var items := DictGet(message, "content").value.items;
    ProcessItemsSucceeds(items);
    var out := ProcessItems(items).0;
    assert Get(ProcessMessage(processors, modelType, message).0.fields, "content") == Some(JList(out));
  }

  /**
   * With a custom processor for the model, a message whose items all succeed is handed to
   * the processor after its items are annotated; the processor's result is what comes back,
   * and its exception is the message's error.
   */
  lemma ProcessMessageCustom(processors: Processors, modelType: string, message: Json)
    requires DictGet(message, "content").Ok? && DictGet(message, "content").value.JList?
    requires modelType in processors
    requires forall i :: 0 <= i < |DictGet(message, "content").value.items| ==>
      ProcessedItem(DictGet(message, "content").value.items[i]).Ok?
    ensures var r := ProcessMessage(processors, modelType, message);
      var items := DictGet(message, "content").value.items;
      exists out :: |out| == |items|
        && (forall i :: 0 <= i < |items| ==> ProcessedItem(items[i]) == Ok(out[i]))
        && var annotated := JObj(Put(message.fields, "content", JList(out)));
           (processors[modelType](annotated).Ok? ==> r == (processors[modelType](annotated).value, None))
           && (processors[modelType](annotated).Err? ==> r == (annotated, Some(processors[modelType](annotated).error)))
  {
    var items := DictGet(message, "content").value.items;
    ProcessItemsSucceeds(items);
    var out := ProcessItems(items).0;
    assert |out| == |items| && forall i :: 0 <= i < |items| ==> ProcessedItem(items[i]) == Ok(out[i]);
  }

  /** The outcome of the `try` body for each message, in order. */
  function Outcomes(processors: Processors, modelType: string, messages: seq<Json>): (r: seq<(Json, Option<PyError>)>)
    ensures |r| == |messages|
    ensures forall i :: 0 <= i < |messages| ==> r[i] == ProcessMessage(processors, modelType, messages[i])
  {
    seq(|messages|, i requires 0 <= i < |messages| => ProcessMessage(processors, modelType, messages[i]))
  }

  /** What the function has returned and logged after the first `n` messages. */
  datatype Processing = Processing(processed: seq<Json>, log: seq<string>)

  function ErrorLine(index: nat, e: PyError): (r: string) {
    "Error processing message " + NatToString(index) + ": " + ErrorText(e)
  }

  /**
   * The outer loop over the first `n` outcomes; `handled` says whether an error handler
   * is registered for the model type.
   */
  function ProcessPrefix(outcomes: seq<(Json, Option<PyError>)>, n: nat, handled: bool): (r: Processing)
    requires n <= |outcomes|
    ensures |r.processed| <= n && |r.log| <= n
    ensures !handled ==> |r.processed| == n
    ensures handled ==> r.log == []
    decreases n
  {
    if n == 0 then Processing([], [])
    else
      var acc := ProcessPrefix(outcomes, n - 1, handled);
      var step := outcomes[n - 1];
      if step.1.None? then Processing(acc.processed + [step.0], acc.log)
      else if handled then acc
      else Processing(acc.processed + [step.0], acc.log + [ErrorLine(n - 1, step.1.value)])
  }

  /** One more round of the outer loop. */
  lemma ProcessPrefixNext(outcomes: seq<(Json, Option<PyError>)>, n: nat, handled: bool)
    requires n < |outcomes|
    ensures var acc := ProcessPrefix(outcomes, n, handled);
      ProcessPrefix(outcomes, n + 1, handled) ==
        if outcomes[n].1.None? then Processing(acc.processed + [outcomes[n].0], acc.log)
        else if handled then acc
        else Processing(acc.processed + [outcomes[n].0], acc.log + [ErrorLine(n, outcomes[n].1.value)])
  {
  }

  /** The outer loop has run over the first `n` outcomes, returning `processed` and logging `log`. */
  ghost predicate PrefixState(outcomes: seq<(Json, Option<PyError>)>, n: nat, handled: bool,
                              processed: seq<Json>, log: seq<string>) {
    n <= |outcomes| && ProcessPrefix(outcomes, n, handled) == Processing(processed, log)
  }

  /** The three ways one round of the outer loop can go. */
  lemma PrefixStateNext(outcomes: seq<(Json, Option<PyError>)>, n: nat, handled: bool,
                        processed: seq<Json>, log: seq<string>)
    requires PrefixState(outcomes, n, handled, processed, log) && n < |outcomes|
    ensures outcomes[n].1.None? ==> PrefixState(outcomes, n + 1, handled, processed + [outcomes[n].0], log)
    ensures outcomes[n].1.Some? && handled ==> PrefixState(outcomes, n + 1, handled, processed, log)
    ensures outcomes[n].1.Some? && !handled ==>
      PrefixState(outcomes, n + 1, handled, processed + [outcomes[n].0], log + [ErrorLine(n, outcomes[n].1.value)])
  {
    ProcessPrefixNext(outcomes, n, handled);
  }

  /** The returned list and the lines logged after the header. */
  function ProcessAll(messages: seq<Json>, modelType: string, handlers: set<string>, processors: Processors)
    : (r: Processing)
    ensures |r.processed| <= |messages| && |r.log| <= |messages|
    ensures modelType !in handlers ==> |r.processed| == |messages|
    ensures modelType in handlers ==> r.log == []
  {
    var outcomes := Outcomes(processors, modelType, messages);
    ProcessPrefix(outcomes, |outcomes|, modelType in handlers)
  }

  /** The header logged first when `debug_mode` is truthy. */
  function DebugHeader(messages: seq<Json>, modelType: string): (r: string) {
    "Processing " + NatToString(|messages|) + " messages for " + modelType
  }

  /**
   * With no error handler every message is returned, in input order, as the `try` body
   * left it, and one line is logged per failing message.
   */
  lemma {:induction false} ProcessPrefixKeepsAll(outcomes: seq<(Json, Option<PyError>)>, n: nat)
    requires n <= |outcomes|
    ensures var r := ProcessPrefix(outcomes, n, false);
      |r.processed| == n
      && (forall i :: 0 <= i < n ==> r.processed[i] == outcomes[i].0)
      && |r.log| == Failures(outcomes[..n])
    decreases n
  {
    if n > 0 {
      ProcessPrefixKeepsAll(outcomes, n - 1);
      assert outcomes[..n][..n - 1] == outcomes[..n - 1];
    }
  }

  /** The number of outcomes that raised. */
  function Failures(outcomes: seq<(Json, Option<PyError>)>): nat {
    if |outcomes| == 0 then 0
    else Failures(outcomes[..|outcomes| - 1]) + (if outcomes[|outcomes| - 1].1.Some? then 1 else 0)
  }

  /** The messages of the outcomes that did not raise, in order. */
  function Successes(outcomes: seq<(Json, Option<PyError>)>): seq<Json> {
    if |outcomes| == 0 then []
    else
      var last := outcomes[|outcomes| - 1];
      Successes(outcomes[..|outcomes| - 1]) + (if last.1.None? then [last.0] else [])
  }

  /**
   * With an error handler nothing is logged, and a failing message is handed to the
   * handler and left out: exactly the successful messages come back, in order.
   */
  lemma {:induction false} ProcessPrefixWithHandler(outcomes: seq<(Json, Option<PyError>)>, n: nat)
    requires n <= |outcomes|
    ensures var r := ProcessPrefix(outcomes, n, true);
      r.log == [] && r.processed == Successes(outcomes[..n])
    decreases n
  {
    if n > 0 {
      ProcessPrefixWithHandler(outcomes, n - 1);
      assert outcomes[..n][..n - 1] == outcomes[..n - 1];
    }
  }

  /** Every logged line names the index and the error of a message that failed. */
  lemma {:induction false} ProcessPrefixLogLines(outcomes: seq<(Json, Option<PyError>)>, n: nat, handled: bool)
    requires n <= |outcomes|
    ensures forall k :: 0 <= k < |ProcessPrefix(outcomes, n, handled).log| ==>
      exists i :: 0 <= i < n && outcomes[i].1.Some?
        && ProcessPrefix(outcomes, n, handled).log[k] == ErrorLine(i, outcomes[i].1.value)
    decreases n
  {
    if n > 0 {
      ProcessPrefixLogLines(outcomes, n - 1, handled);
      var acc := ProcessPrefix(outcomes, n - 1, handled);
      var r := ProcessPrefix(outcomes, n, handled);
      forall k | 0 <= k < |r.log|
        ensures exists i :: (0 <= i < n && outcomes[i].1.Some? && r.log[k] == ErrorLine(i, outcomes[i].1.value))
      {
        if k < |acc.log| {
          assert r.log[k] == acc.log[k];
          var i :| 0 <= i < n - 1 && outcomes[i].1.Some? && acc.log[k] == ErrorLine(i, outcomes[i].1.value);
        } else {
          assert r.log[k] == ErrorLine(n - 1, outcomes[n - 1].1.value);
        }
      }
    } else {
      assert ProcessPrefix(outcomes, n, handled).log == [];
    }
  }

  /** The two outer-loop lemmas stated for `ProcessAll`. */
  lemma ProcessAllSpec(messages: seq<Json>, modelType: string, handlers: set<string>, processors: Processors)
    ensures var r := ProcessAll(messages, modelType, handlers, processors);
      var outcomes := Outcomes(processors, modelType, messages);
      (modelType !in handlers ==>
         |r.processed| == |messages|
         && (forall i :: 0 <= i < |messages| ==> r.processed[i] == ProcessMessage(processors, modelType, messages[i]).0)
         && |r.log| == Failures(outcomes))
      && (modelType in handlers ==> r.log == [] && r.processed == Successes(outcomes))
  {
    var outcomes := Outcomes(processors, modelType, messages);
    assert outcomes[..|outcomes|] == outcomes;
    if modelType in handlers {
      ProcessPrefixWithHandler(outcomes, |outcomes|);
    } else {
      ProcessPrefixKeepsAll(outcomes, |outcomes|);
    }
  }
}
