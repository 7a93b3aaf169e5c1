/** The three-step workflow of the app: the session store, its initialisation
    and the three button handlers (generate idea, generate image, publish).
    The OpenAI calls and the webhook POST are not modelled; each handler is
    given the reply the service would send, and the calls themselves are
    visible only as the requests the handlers return. */
module Workflow {
  import opened AsciiText
  import opened Classifier
  import opened Drop

  datatype Option<T> = None | Some(value: T)

  /** The keys of the three session fields. */
  const IdeaKey: string := "idea"
  const ImageKey: string := "image_url"
  const TypeKey: string := "product_type"

  /** The three session fields, read out of the store. The empty string is
      Python's unset or falsy value; every handler tests these fields only
      for truthiness. */
  datatype State = State(idea: string, imageUrl: string, productType: string)

  /** What the chat completion call yields: an exception, a first choice
      whose content is None, or a first choice with text. */
  datatype ChatReply = ChatFailed | ChatNoContent | ChatText(text: string)

  /** What the image call yields: an exception, or the URL of the first image
      (a missing URL is the empty string). */
  datatype ImageReply = ImageFailed | ImageUrl(url: string)

  /** What the webhook POST yields: an exception, or a response status. */
  datatype PostReply = PostFailed | PostStatus(status: int)

  /** A POST of `payload` as JSON to `url`. */
  datatype Request = Request(url: string, payload: Payload)

  /** What the publish button does, as the user sees it. */
  datatype PublishOutcome =
    | NotOffered       // the button is not shown: idea or image URL missing
    | MissingWebhook   // warning: no webhook URL entered
    | Sent             // the webhook answered 200
    | Rejected(status: int)
    | SendFailed       // the POST raised

  predicate HasSessionKeys(m: map<string, string>)
  {
    IdeaKey in m && ImageKey in m && TypeKey in m
  }

  function StateOf(m: map<string, string>): State
    requires HasSessionKeys(m)
  {
    State(m[IdeaKey], m[ImageKey], m[TypeKey])
  }

  /** `m` with its three session fields overwritten by `s`. */
  function Commit(m: map<string, string>, s: State): map<string, string>
  {
    m[IdeaKey := s.idea][ImageKey := s.imageUrl][TypeKey := s.productType]
  }

  /** Session initialisation: each missing field is set to "", and fields
      already present keep their values. */
  function InitStore(m: map<string, string>): (r: map<string, string>)
    ensures HasSessionKeys(r)
    ensures r.Keys == m.Keys + {IdeaKey, ImageKey, TypeKey}
    ensures forall k :: k in m ==> r[k] == m[k]
    ensures forall k :: k in r && k !in m ==> r[k] == ""
  {
    var m1 := if IdeaKey in m then m else m[IdeaKey := ""];
    var m2 := if ImageKey in m1 then m1 else m1[ImageKey := ""];
    if TypeKey in m2 then m2 else m2[TypeKey := ""]
  }

  /** Re-running the script re-runs the initialisation, which then does nothing. */
  lemma InitStoreIdempotent(m: map<string, string>)
    ensures InitStore(InitStore(m)) == InitStore(m)
  {
  }

  /** A new browser session starts with three empty fields. */
  lemma InitStoreFresh(m: map<string, string>)
    requires IdeaKey !in m && ImageKey !in m && TypeKey !in m
    ensures StateOf(InitStore(m)) == State("", "", "")
  {
  }

  /** Writing back the fields a store already holds changes nothing. */
  lemma CommitUnchanged(m: map<string, string>)
    requires HasSessionKeys(m)
    ensures Commit(m, StateOf(m)) == m
  {
  }

  // ---------------------------------------------------------------------
  // The handlers' effect on the session fields

  /** The idea handler: on text, store the idea and its product type; on any
      failure store nothing. */
  function IdeaStep(s: State, reply: ChatReply): State
  {
    match reply
    case ChatText(text) => State(text, s.imageUrl, Classify(text))
    case _ => s
  }

  /** The idea handler as the source has it: the content is stored before it
      is lower-cased, so a None content is stored (clearing the idea, since
      None is falsy) and only then raises. */
  function IdeaStepAsWritten(s: State, reply: ChatReply): State
  {
    match reply
    case ChatText(text) => State(text, s.imageUrl, Classify(text))
    case ChatNoContent => s.(idea := "")
    case ChatFailed => s
  }

  /** The image prompt: the product type and the idea in a fixed template. */
  function ImagePrompt(productType: string, idea: string): string
  {
    "A " + productType + " design featuring: " + idea + StyleDirective
  }

  const StyleDirective: string :=
    ". Bold, vibrant, clean design with centered composition, transparent background, merch-ready, vector-style, suitable for Etsy listing."

  /** The image call the image button makes, if the button is offered. */
  function ImageRequest(s: State): Option<string>
  {
    if s.idea == "" then None else Some(ImagePrompt(s.productType, s.idea))
  }

  /** The image handler: offered only with an idea; stores the URL on success. */
  function ImageStep(s: State, reply: ImageReply): State
  {
    if s.idea == "" then s
    else match reply
      case ImageUrl(url) => s.(imageUrl := url)
      case ImageFailed => s
  }

  /** The webhook call the publish button makes, if any. */
  function PublishRequest(s: State, webhook: string): Option<Request>
  {
    if s.idea == "" || s.imageUrl == "" || webhook == "" then None
    else Some(Request(webhook, BuildPayload(s.idea, s.imageUrl, s.productType)))
  }

  /** What publishing reports, given what the webhook would answer. */
  function PublishResult(s: State, webhook: string, reply: PostReply): PublishOutcome
  {
    if s.idea == "" || s.imageUrl == "" then NotOffered
    else if webhook == "" then MissingWebhook
    else match reply
      case PostFailed => SendFailed
      case PostStatus(status) => if status == 200 then Sent else Rejected(status)
  }

  // ---------------------------------------------------------------------
  // Properties of the handlers

  /** Sessions the handlers can produce from a fresh one: a product type is
      either unset or a classifier result, and it is set whenever an idea or
      an image URL is. */
  predicate Consistent(s: State)
  {
    && (s.productType == "" || IsProductType(s.productType))
    && (s.idea != "" ==> IsProductType(s.productType))
    && (s.imageUrl != "" ==> IsProductType(s.productType))
  }

  lemma FreshConsistent()
    ensures Consistent(State("", "", ""))
  {
  }

  /** After a successful idea step the product type is one of four values,
      and every idea step keeps the session consistent. */
  lemma IdeaStepConsistent(s: State, reply: ChatReply)
    requires Consistent(s)
    ensures Consistent(IdeaStep(s, reply))
    ensures reply.ChatText? ==> IsProductType(IdeaStep(s, reply).productType)
    ensures reply.ChatText? ==> IdeaStep(s, reply).idea == reply.text
  {
  }

  /** A failed idea call changes no session field. */
  lemma FailedIdeaChangesNothing(s: State, reply: ChatReply)
    requires !reply.ChatText?
    ensures IdeaStep(s, reply) == s
  {
  }

  /** The source's handler differs from IdeaStep only on a None content. */
  lemma IdeaStepAsWrittenAgrees(s: State, reply: ChatReply)
    requires reply != ChatNoContent
    ensures IdeaStepAsWritten(s, reply) == IdeaStep(s, reply)
  {
  }

  /** The idea step as written keeps the session consistent too: a None
      content clears the idea but leaves a classifier result behind. */
  lemma IdeaStepAsWrittenConsistent(s: State, reply: ChatReply)
    requires Consistent(s)
    ensures Consistent(IdeaStepAsWritten(s, reply))
    ensures reply == ChatNoContent ==> IdeaStepAsWritten(s, reply).productType == s.productType
  {
  }

  /** Witness: with a None content the source clears a stored idea although
      the handler reports an error, and leaves the product type behind. */
  lemma NoContentClearsIdeaAsWritten()
    ensures var s := State("Funny cat mug", "https://images.example/cat.png", "mug");
            var s' := IdeaStepAsWritten(s, ChatNoContent);
            s' != s && s'.idea == "" && s'.productType == "mug" && s'.imageUrl == s.imageUrl
  {
  }

  /** The image step keeps the session consistent; it never touches the idea
      or the product type, and it sets the URL only when an idea exists. */
  lemma ImageStepConsistent(s: State, reply: ImageReply)
    requires Consistent(s)
    ensures Consistent(ImageStep(s, reply))
    ensures ImageStep(s, reply).idea == s.idea
    ensures ImageStep(s, reply).productType == s.productType
    ensures ImageStep(s, reply).imageUrl != s.imageUrl ==> s.idea != ""
  {
  }

  /** A failed image call, or an absent idea, changes nothing; otherwise the
      URL is the one the service returned. */
  lemma ImageStepResult(s: State, reply: ImageReply)
    ensures reply.ImageFailed? || s.idea == "" ==> ImageStep(s, reply) == s
    ensures reply.ImageUrl? && s.idea != "" ==> ImageStep(s, reply).imageUrl == reply.url
  {
  }

  /** The image prompt names the product type and carries the whole idea;
      for one product type, different ideas give different prompts. */
  lemma ImagePromptEmbeds(productType: string, idea: string, other: string)
    ensures Occurs(ImagePrompt(productType, idea), idea)
    ensures StartsWith(ImagePrompt(productType, idea), "A " + productType + " design featuring: ")
    ensures ImagePrompt(productType, idea) == ImagePrompt(productType, other) ==> idea == other
  {
    var head := "A " + productType + " design featuring: ";
    var p := ImagePrompt(productType, idea);
    assert p == head + idea + StyleDirective;
    assert p[|head|..|head| + |idea|] == idea;
    assert OccursAt(p, idea, |head|);
    assert p[..|head|] == head;
    if p == ImagePrompt(productType, other) {
      assert |other| == |idea|;
      assert other == ImagePrompt(productType, other)[|head|..|head| + |other|];
    }
  }

  /** Publishing makes a webhook call exactly when idea, image URL and webhook
      are all set, and reports success exactly when the webhook answers 200. */
  lemma PublishGates(s: State, webhook: string, reply: PostReply)
    ensures PublishRequest(s, webhook).Some? <==> s.idea != "" && s.imageUrl != "" && webhook != ""
    ensures PublishResult(s, webhook, reply) == Sent <==>
              PublishRequest(s, webhook).Some? && reply == PostStatus(200)
    ensures s.idea == "" || s.imageUrl == "" ==> PublishResult(s, webhook, reply) == NotOffered
    ensures s.idea != "" && s.imageUrl != "" && webhook == "" ==>
              PublishResult(s, webhook, reply) == MissingWebhook
  {
  }

  /** In a consistent session, what gets posted carries a capitalized
      classifier result as its category. */
  lemma PublishedCategory(s: State, webhook: string)
    requires Consistent(s)
    requires PublishRequest(s, webhook).Some?
    ensures PublishRequest(s, webhook).value.payload.category in {"Mug", "T-shirt", "Poster", "Product"}
    ensures PublishRequest(s, webhook).value.payload.description == s.idea
    ensures PublishRequest(s, webhook).value.url == webhook
  {
    CategoryOfProductType(s.productType);
  }

  /** A button press together with what the service called behind it answers. */
  datatype Press =
    | IdeaPress(chat: ChatReply)
    | ImagePress(image: ImageReply)
    | PublishPress(webhook: string, post: PostReply)

  /** The session fields after one press; publishing changes none of them.
      With `asWritten` the idea press follows app.py as written (a None
      content clears the idea), otherwise the corrected IdeaStep. */
  function Apply(s: State, p: Press, asWritten: bool): State
  {
    match p
    case IdeaPress(chat) => if asWritten then IdeaStepAsWritten(s, chat) else IdeaStep(s, chat)
    case ImagePress(image) => ImageStep(s, image)
    case PublishPress(_, _) => s
  }

  /** The session fields after a sequence of presses, one script run each. */
  function Run(s: State, presses: seq<Press>, asWritten: bool): State
    decreases |presses|
  {
    if presses == [] then s else Run(Apply(s, presses[0], asWritten), presses[1..], asWritten)
  }

  /** Every sequence of presses keeps the session consistent, both for the
      handlers as written and for the corrected idea step. */
  lemma {:induction false} RunConsistent(s: State, presses: seq<Press>, asWritten: bool)
    requires Consistent(s)
    ensures Consistent(Run(s, presses, asWritten))
    decreases |presses|
  {
    if presses != [] {
      match presses[0] {
        case IdeaPress(chat) =>
          IdeaStepConsistent(s, chat);
          IdeaStepAsWrittenConsistent(s, chat);
        case ImagePress(image) => ImageStepConsistent(s, image);
        case PublishPress(_, _) =>
      }
      RunConsistent(Apply(s, presses[0], asWritten), presses[1..], asWritten);
    }
  }

  /** Whatever the user did before, a publish from a fresh session posts one
      of the four capitalized categories, never an empty one; this holds of
      the handlers as written as well as of the corrected ones. */
  lemma PublishedCategoryAfterAnyRun(presses: seq<Press>, webhook: string, asWritten: bool)
    ensures var s := Run(State("", "", ""), presses, asWritten);
            PublishRequest(s, webhook).Some? ==>
              PublishRequest(s, webhook).value.payload.category in {"Mug", "T-shirt", "Poster", "Product"}
  {
    var s := Run(State("", "", ""), presses, asWritten);
    RunConsistent(State("", "", ""), presses, asWritten);
    if PublishRequest(s, webhook).Some? {
      PublishedCategory(s, webhook);
    }
  }

  /** The end-to-end example: an idea mentioning a mug yields a mug, and
      publishing it posts the category "Mug" at the flat price. */
  lemma FunnyCatMugExample()
    ensures Classify("Funny Cat Mug idea") == "mug"
    ensures var s := State("Funny Cat Mug idea", "https://images.example/cat.png", "mug");
            var p := BuildPayload(s.idea, s.imageUrl, s.productType);
            p.category == "Mug" && p.price == "29.99" && p.title == s.idea
  {
    var idea := "Funny Cat Mug idea";
    assert idea[10..13] == "Mug";
    assert Lower(idea)[10..13] == "mug" by {
      assert Lower(idea)[10] == LowerChar('M') == 'm';
    }
    assert OccursAt(Lower(idea), "mug", 10);
    CategoryOfProductType("mug");
  }

  // ---------------------------------------------------------------------
  // The session itself

  /** The browser session's state store and the handlers that update it. */
  class Session {
    var store: map<string, string>

    ghost predicate Valid()
      reads this
    {
      HasSessionKeys(store)
    }

    function Fields(): State
      reads this
      requires Valid()
    {
      StateOf(store)
    }

    /** A new browser session holds nothing. */
    constructor ()
      ensures store == map[]
    {
      store := map[];
    }

    /** The initialisation at the top of every script run. */
    method Init()
      modifies this
      ensures Valid()
      ensures store == InitStore(old(store))
    {
      if IdeaKey !in store {
        store := store[IdeaKey := ""];
      }
      if ImageKey !in store {
        store := store[ImageKey := ""];
      }
      if TypeKey !in store {
        store := store[TypeKey := ""];
      }
    }

    /** The idea button; `ok` is whether the success message is shown. */
    method GenerateIdea(reply: ChatReply) returns (ok: bool)
      requires Valid()
      modifies this
      ensures Valid()
      ensures ok == reply.ChatText?
      ensures Consistent(old(Fields())) ==> Consistent(Fields())
      ensures store == Commit(old(store), IdeaStep(old(Fields()), reply))
    {
      CommitUnchanged(store);
      match reply {
        case ChatText(text) =>
          store := store[IdeaKey := text];
          store := store[TypeKey := Classify(text)];
          ok := true;
        case _ =>
          ok := false;
      }
    }

    /** The image button: `prompt` is the image call made (None when the
        button is not offered), `ok` whether the success message is shown. */
    method GenerateImage(reply: ImageReply) returns (prompt: Option<string>, ok: bool)
      requires Valid()
      modifies this
      ensures Valid()
      ensures prompt == ImageRequest(old(Fields()))
      ensures ok == (prompt.Some? && reply.ImageUrl?)
      ensures Consistent(old(Fields())) ==> Consistent(Fields())
      ensures store == Commit(old(store), ImageStep(old(Fields()), reply))
    {
      CommitUnchanged(store);
      if store[IdeaKey] == "" {
        return None, false;
      }
      prompt := Some(ImagePrompt(store[TypeKey], store[IdeaKey]));
      match reply {
        case ImageUrl(url) =>
          store := store[ImageKey := url];
          ok := true;
        case ImageFailed =>
          ok := false;
      }
    }

    /** The publish button: `request` is the webhook call made (None when no
        call is made). Publishing changes no session field. */
    method Publish(webhook: string, reply: PostReply) returns (request: Option<Request>, outcome: PublishOutcome)
      requires Valid()
      ensures request == PublishRequest(Fields(), webhook)
      ensures outcome == PublishResult(Fields(), webhook, reply)
    {
      var idea, imageUrl := store[IdeaKey], store[ImageKey];
      if idea == "" || imageUrl == "" {
        return None, NotOffered;
      }
      if webhook == "" {
        return None, MissingWebhook;
      }
      var payload := BuildPayload(idea, imageUrl, store[TypeKey]);
      request := Some(Request(webhook, payload));
      match reply {
        case PostFailed =>
          outcome := SendFailed;
        case PostStatus(status) =>
          outcome := if status == 200 then Sent else Rejected(status);
      }
    }
  }
}
