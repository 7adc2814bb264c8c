/**
 * `classify_product` of utils.py: the chat request built for the completion
 * endpoint, the order in which the guards fire, the check of the reply's
 * shape, the normalisation of every component and the wrapping of every
 * failure into one of three errors.
 *
 * The endpoint is not modelled: its answer is the input `reply`, and the
 * out-parameter `sent` records whether it was called and with what.
 */
module Classifier {
  import opened Wrappers
  import opened PyJson

  // ---------------------------------------------------------------- request

  /** The content of a chat message. */
  datatype Content =
    | SystemPrompt            // the fixed instruction text of utils.py:10-71, not reproduced here
    | Text(text: string)
    | Parts(parts: seq<Part>)

  /** One part of a multimodal user message. */
  datatype Part = TextPart(text: string) | ImageUrlPart(url: string)

  datatype ChatMessage = ChatMessage(role: string, content: Content)

  const UserPrefix: string := "Analyze this beauty product: "
  const ImagePrefix: string := "data:image/jpeg;base64,"

  /** Python truthiness of `image_data`: present and not the empty string. */
  predicate HasImage(imageData: Option<string>)
  {
    imageData.Some? && imageData.value != ""
  }

  /** The two messages sent to the endpoint: the system prompt, then the user's
      text, joined by the image as a data URI when there is one. */
  function BuildMessages(description: string, imageData: Option<string>): (msgs: seq<ChatMessage>)
    ensures |msgs| == 2
    ensures msgs[0] == ChatMessage("system", SystemPrompt)
    ensures msgs[1].role == "user"
    ensures msgs[1].content.Parts? <==> HasImage(imageData)
  {
    var text := UserPrefix + description;
    var user :=
      if HasImage(imageData) then Parts([TextPart(text), ImageUrlPart(ImagePrefix + imageData.value)])
      else Text(text);
    [ChatMessage("system", SystemPrompt), ChatMessage("user", user)]
  }

  /** `t` without the prefix `p`, or None when `t` does not start with `p`. */
  function StripPrefix(p: string, t: string): Option<string>
  {
    if |p| <= |t| && t[..|p|] == p then Some(t[|p|..]) else None
  }

  /** What the endpoint can read back from a request built by BuildMessages:
      the description and the base64 image, if any. */
  function ReadRequest(msgs: seq<ChatMessage>): Option<(string, Option<string>)>
  {
    if |msgs| != 2 || msgs[0] != ChatMessage("system", SystemPrompt) || msgs[1].role != "user" then None
    else
      match msgs[1].content
      case SystemPrompt => None
      case Text(t) =>
        (match StripPrefix(UserPrefix, t)
         case Some(d) => Some((d, None))
         case None => None)
      case Parts(ps) =>
        if |ps| != 2 || !ps[0].TextPart? || !ps[1].ImageUrlPart? then None
        else
          (match (StripPrefix(UserPrefix, ps[0].text), StripPrefix(ImagePrefix, ps[1].url))
           case (Some(d), Some(img)) => Some((d, Some(img)))
           case _ => None)
  }

  /** The request carries the description and a truthy image unchanged: the
      endpoint sees "Analyze this beauty product: " + description, and the
      image exactly when `image_data` is truthy. */
  lemma RequestRoundTrip(description: string, imageData: Option<string>)
    ensures ReadRequest(BuildMessages(description, imageData))
         == Some((description, if HasImage(imageData) then imageData else None))
  {
  }

  // ---------------------------------------------------------- normalisation

  /** One component as returned to the caller: the four-key dict of
      utils.py:125-130. Each field holds whatever JSON value the reply had. */
  datatype Component = Component(
    componentName: Json,
    material: Json,
    disposalCategory: Json,
    classificationExplanation: Json)

  /** Renames the reply's keys and fills in a default for each missing one;
      a present `disposal_category` is copied without being checked. */
  function NormalizeComponent(fields: map<string, Json>): (c: Component)
    ensures "component_name" in fields ==> c.componentName == fields["component_name"]
    ensures "component_name" !in fields ==> c.componentName == JStr("Unknown")
    ensures "component_material" in fields ==> c.material == fields["component_material"]
    ensures "component_material" !in fields ==> c.material == JStr("")
    ensures "disposal_category" in fields ==> c.disposalCategory == fields["disposal_category"]
    ensures "disposal_category" !in fields ==> c.disposalCategory == JStr("TRASH")
    ensures "disposal_category_explanation" in fields ==> c.classificationExplanation == fields["disposal_category_explanation"]
    ensures "disposal_category_explanation" !in fields ==> c.classificationExplanation == JStr("")
  {
    Component(
      Get(fields, "component_name", JStr("Unknown")),
      Get(fields, "component_material", JStr("")),
      Get(fields, "disposal_category", JStr("TRASH")),
      Get(fields, "disposal_category_explanation", JStr("")))
  }

  /** The records `done` already built, followed by the outcome of the rest. */
  function Prepended(done: seq<Component>, rest: Result<seq<Component>, string>): Result<seq<Component>, string>
  {
    match rest
    case Success(cs) => Success(done + cs)
    case Failure(e) => Failure(e)
  }

  /** The loop of utils.py:123-133 over a list: every dict is normalised; the
      first element that is not a dict raises AttributeError, which the
      `except (TypeError, ValueError)` does not catch. */
  function NormalizedItems(items: seq<Json>): Result<seq<Component>, string>
  {
    if items == [] then Success([])
    else if !items[0].JObject? then Failure(NoAttributeGet(TypeName(items[0])))
    else Prepended([NormalizeComponent(items[0].fields)], NormalizedItems(items[1..]))
  }

  /** The loop of utils.py:123-133 over the value of `components`: the
      normalised records, or the text of the exception that escapes it.
      Iterating a str or a dict yields str elements, so a non-empty one fails
      on the first `.get`; other non-lists are not iterable at all. */
  function Normalized(components: Json): Result<seq<Component>, string>
  {
    match components
    case JArray(items) => NormalizedItems(items)
    case JStr(s) => if s == "" then Success([]) else Failure(NoAttributeGet("str"))
    case JObject(fields) => if fields == map[] then Success([]) else Failure(NoAttributeGet("str"))
    case _ => Failure(NotIterable(TypeName(components)))
  }

  /** The list loop succeeds exactly when every element is a dict. */
  lemma {:induction false} NormalizedItemsSucceedsIff(items: seq<Json>)
    ensures NormalizedItems(items).Success? <==> forall k :: 0 <= k < |items| ==> items[k].JObject?
  {
    if items != [] {
      NormalizedItemsSucceedsIff(items[1..]);
      assert forall k :: 1 <= k < |items| ==> items[k] == items[1..][k - 1];
    }
  }

  /** On success there is one record per element, in the same order, each the
      normalisation of its element: nothing is skipped or reordered. */
  lemma {:induction false} NormalizedItemsPreservesOrder(items: seq<Json>)
    requires NormalizedItems(items).Success?
    ensures |NormalizedItems(items).value| == |items|
    ensures forall k :: 0 <= k < |items| ==>
      items[k].JObject? && NormalizedItems(items).value[k] == NormalizeComponent(items[k].fields)
  {
    if items != [] {
      NormalizedItemsPreservesOrder(items[1..]);
      assert forall k :: 1 <= k < |items| ==> items[k] == items[1..][k - 1];
    }
  }

  /** On failure the message names the type of the first element that is not a dict. */
  lemma {:induction false} NormalizedItemsFailsAtFirstNonObject(items: seq<Json>, j: nat)
    requires j < |items| && !items[j].JObject?
    requires forall k :: 0 <= k < j ==> items[k].JObject?
    ensures NormalizedItems(items) == Failure(NoAttributeGet(TypeName(items[j])))
  {
    if j > 0 {
      NormalizedItemsFailsAtFirstNonObject(items[1..], j - 1);
    }
  }

  /** The shapes of `components` that yield a component list: a list of dicts,
      an empty dict or an empty string. Everything else raises. */
  lemma NormalizedSucceedsIff(components: Json)
    ensures Normalized(components).Success? <==>
      || (components.JArray? && forall k :: 0 <= k < |components.items| ==> components.items[k].JObject?)
      || components == JObject(map[])
      || components == JStr("")
  {
    if components.JArray? {
      NormalizedItemsSucceedsIff(components.items);
    }
  }

  /** utils.py:122-133 as a loop that appends to `processed`; it computes Normalized. */
  method NormalizeComponents(components: Json) returns (r: Result<seq<Component>, string>)
    ensures r == Normalized(components)
  {
    match components {
      case JArray(items) =>
        var processed: seq<Component> := [];
        var i := 0;
        assert items[0..] == items;
        assert NormalizedItems(items).Success? ==> [] + NormalizedItems(items).value == NormalizedItems(items).value;
        while i < |items|
          invariant 0 <= i <= |items|
          invariant NormalizedItems(items) == Prepended(processed, NormalizedItems(items[i..]))
        {
          var item := items[i];
          assert items[i..][0] == item && items[i..][1..] == items[i + 1..];
          if !item.JObject? {
            assert NormalizedItems(items[i..]) == Failure(NoAttributeGet(TypeName(item)));
            return Failure(NoAttributeGet(TypeName(item)));
          }
          var rest := NormalizedItems(items[i + 1..]);
          assert rest.Success? ==>
            processed + ([NormalizeComponent(item.fields)] + rest.value)
            == (processed + [NormalizeComponent(item.fields)]) + rest.value;
          processed := processed + [NormalizeComponent(item.fields)];
          i := i + 1;
        }
        assert items[i..] == [];
        assert processed + [] == processed;
        r := Success(processed);
      case JStr(s) =>
        r := if s == "" then Success([]) else Failure(NoAttributeGet("str"));
      case JObject(fields) =>
        r := if fields == map[] then Success([]) else Failure(NoAttributeGet("str"));
      case _ =>
        r := Failure(NotIterable(TypeName(components)));
    }
  }

  // -------------------------------------------------------- whole operation

  /** What the completion endpoint gave back. */
  datatype Reply =
    | CallFailed(message: string) // the call, reading the reply's content, or `json.loads` with anything
                                  // other than a JSONDecodeError raised; `str(e)` is `message`
    | NotJson(message: string)    // `json.loads` raised JSONDecodeError; `str(e)` is `message`
    | Parsed(value: Json)         // the reply decoded to `value`

  /** The three ways `classify_product` raises. */
  datatype ClassifyError =
    | ClientNotInitialized              // a bare ValueError, raised before the `try`
    | ValidationError(detail: string)   // a ValueError caught at utils.py:137
    | ClassificationFailed(detail: string) // any other exception, caught at utils.py:139
  {
    /** `str(e)` of the exception the caller sees. */
    function Message(): string
    {
      match this
      case ClientNotInitialized => "OpenAI client is not initialized"
      case ValidationError(d) => "Validation error: " + d
      case ClassificationFailed(d) => "Failed to classify product: " + d
    }

    /** Whether the caller sees a ValueError rather than a plain Exception. */
    predicate IsValueError()
    {
      ClientNotInitialized?
    }
  }

  const DescriptionRequired: string := "Product description is required"
  const MissingComponents: string := "Invalid response format: missing 'components' array"
  const InvalidJson: string := "Invalid JSON response from API: "
  const NoResponse: string := "Failed to get response from OpenAI: "

  /** The reply is a dict with a `components` key (utils.py:111). */
  predicate HasComponents(v: Json)
  {
    v.JObject? && "components" in v.fields
  }

  /** `classify_product(description, image_data, openai_client)`, with
      `clientPresent` for the truthiness of `openai_client` and `reply` for
      what the endpoint would answer. `sent` is the request the endpoint
      received, or None when it was never called. */
  method ClassifyProduct(description: string, imageData: Option<string>, clientPresent: bool, reply: Reply)
    returns (sent: Option<seq<ChatMessage>>, outcome: Result<seq<Component>, ClassifyError>)
    // the endpoint is called, with the built request, exactly when both guards pass
    ensures sent == if clientPresent && description != "" then Some(BuildMessages(description, imageData)) else None
    // the client check runs first, whatever the description
    ensures !clientPresent ==> outcome == Failure(ClientNotInitialized)
    ensures clientPresent && description == "" ==> outcome == Failure(ValidationError(DescriptionRequired))
    ensures sent.Some? && reply.CallFailed? ==> outcome == Failure(ValidationError(NoResponse + reply.message))
    ensures sent.Some? && reply.NotJson? ==> outcome == Failure(ValidationError(InvalidJson + reply.message))
    // the shape error is raised inside the inner `try`, so it is wrapped twice
    ensures sent.Some? && reply.Parsed? && !HasComponents(reply.value) ==>
      outcome == Failure(ValidationError(NoResponse + MissingComponents))
    ensures sent.Some? && reply.Parsed? && HasComponents(reply.value) ==>
      match Normalized(reply.value.fields["components"])
      case Success(cs) => outcome == Success(cs)
      case Failure(e) => outcome == Failure(ClassificationFailed(e))
    // which inputs end in a "Validation error: ..." failure
    ensures (outcome.Failure? && outcome.error.ValidationError?) <==>
      clientPresent && (description == "" || !reply.Parsed? || !HasComponents(reply.value))
    // only the missing-client error is the bare ValueError; the others are wrapped in Exception
    ensures outcome.Failure? ==> (outcome.error.IsValueError() <==> !clientPresent)
    // a component list is only ever returned from a well-shaped reply
    ensures outcome.Success? ==> sent.Some? && reply.Parsed? && HasComponents(reply.value)
  {
    var messages := BuildMessages(description, imageData);
    sent := None;
    if !clientPresent {
      return sent, Failure(ClientNotInitialized);
    }
    if description == "" {
      return sent, Failure(ValidationError(DescriptionRequired));
    }
    sent := Some(messages);
    var result: Json;
    match reply {
      case CallFailed(m) =>
        return sent, Failure(ValidationError(NoResponse + m));
      case NotJson(m) =>
        return sent, Failure(ValidationError(InvalidJson + m));
      case Parsed(v) =>
        if !HasComponents(v) {
          return sent, Failure(ValidationError(NoResponse + MissingComponents));
        }
        result := v;
    }
    var processed := NormalizeComponents(result.fields["components"]);
    match processed {
      case Success(cs) => outcome := Success(cs);
      case Failure(e) => outcome := Failure(ClassificationFailed(e));
    }
  }

}
