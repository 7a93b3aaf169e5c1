# AIMM merch generator: the workflow core in Dafny

The app is a single Streamlit script (`app.py`). It runs three steps, one per
button: generate a product idea with a chat model, generate an image for it,
and send the pair to an automation webhook as a "merch drop". Around those
calls sits a small amount of decision logic. This project models that logic
and proves properties of it:

- the product-type classifier, which scans the lower-cased idea for "mug", then
  "shirt"/"t-shirt", then "poster", and falls back to "product";
- the webhook payload: a title of at most 100 characters, the full idea as the
  description, the image URL, a flat price "29.99", and the capitalized product
  type as the category;
- the session store and the three button handlers as a state machine. The
  store is initialised once per run. Each handler is gated on the fields
  filled in by the earlier steps.

Modules:

- `AsciiText` (`ascii_text.dfy`): Python's `lower()`, `capitalize()` and
  `pat in text`, restricted to ASCII. The scan `Contains` is proved equal to the
  reference definition `Occurs`, which says that an occurrence exists.
- `Classifier` (`classifier.dfy`): `Classify`, its priority and
  case-insensitivity properties, and the same chain written as a first-match
  table (`FirstMatch` over `Rules`).
- `Drop` (`drop.dfy`): the `Payload` record and `BuildPayload`.
- `Workflow` (`workflow.dfy`): the class `Session`, whose field `store` is the
  session-state map. It has one method per handler. Beside the class are pure
  step functions over the three fields (`State`), the lemmas about those
  functions, and the invariant `Consistent`. `Run` replays a sequence of
  button presses, one script run each.

The chat call, the image call and the webhook POST are not modelled. Each
handler receives the reply the service would give (`ChatReply`,
`ImageReply`, `PostReply`). The image and publish handlers also return the
request they make, where `None` means that no call is made; the idea handler
always makes its call and returns only whether it succeeded. `Publish` has no `modifies` clause, so it
provably leaves the session unchanged.

Three details of app.py, modelled as written:

- the title is `idea[:100]`, the whole idea cut to 100 characters, not its
  first line;
- the price is always "29.99", with no per-type price table;
- the POST has no timeout.

## Model

| member | source | states |
|---|---|---|
| AsciiText.Lower | app.py:34 | `lower()` keeps the length, maps each ASCII capital to its small letter and keeps every other character |
| AsciiText.Capitalize | app.py:82 | `capitalize()` keeps the length and changes only case: the first character ends up not lower-case, the rest not upper-case |
| AsciiText.CapitalizeIgnoresCase | app.py:82 | the category does not depend on the case of the product type |
| AsciiText.ContainsIffOccurs | app.py:34-39 | the `in` scan finds a keyword exactly when some occurrence of it exists, in both directions |
| Classifier.Classify | app.py:34-41 | the result is one of "mug", "t-shirt", "poster" or "product". Each value holds exactly when its keyword occurs in the lower-cased idea and no higher-priority keyword does |
| Classifier.TShirtMentionsShirt | app.py:36 | the "t-shirt" test adds nothing, because any text containing "t-shirt" contains "shirt" |
| Classifier.ClassifyIgnoresCase | app.py:34-39 | an idea and its lower-cased form classify alike |
| Classifier.MugWins | app.py:34-35 | an idea mentioning "mug" in any case classifies as "mug", whatever text is added before or after it |
| Classifier.FirstMatch | app.py:34-41 | the result is the product type of the first rule that matches, with no earlier rule matching; or the fallback when no rule matches |
| Classifier.ClassifyIsFirstMatch | app.py:34-41 | the if-chain equals first-match over the ordered rule table with fallback "product" |
| Drop.Truncate | app.py:78 | `s[:n]` is a prefix of `s` of length min(n, \|s\|) |
| Drop.BuildPayload | app.py:77-83 | the title is a prefix of the idea of length min(100, \|idea\|). The description is the idea and the image URL is passed through. The price is "29.99". The category is the product type with only its case changed: first character not lower-case, the rest not upper-case |
| Drop.ShortIdeaIsTitle | app.py:78 | an idea of at most 100 characters is its own title |
| Drop.CategoryOfProductType | app.py:82 | the four product types become "Mug", "T-shirt", "Poster" and "Product" |
| Workflow.InitStore | app.py:13-18 | after initialisation all three keys are present. Existing entries keep their values and only missing keys become "" |
| Workflow.InitStoreIdempotent | app.py:13-18 | initialising an initialised store changes nothing (every rerun of the script) |
| Workflow.InitStoreFresh | app.py:13-18 | a new session starts with idea, image URL and product type all "" |
| Workflow.FreshConsistent | app.py:13-18 | the fresh session satisfies the session invariant |
| Workflow.IdeaStepConsistent | app.py:32-41 | a successful idea step stores the text and a product type from the four values; every idea step keeps the invariant |
| Workflow.FailedIdeaChangesNothing | app.py:22-44 | a failed idea call leaves idea, image URL and product type unchanged |
| Workflow.IdeaStepAsWrittenAgrees | app.py:32-44 | the source's handler and the corrected one differ only when the content is None |
| Workflow.NoContentClearsIdeaAsWritten | app.py:32-34 | as written, a None content clears a stored idea and leaves the old product type and image URL behind |
| Workflow.ImageStepConsistent | app.py:52-64 | the image step keeps the invariant and never changes idea or product type. It changes the image URL only when an idea is set |
| Workflow.ImageStepResult | app.py:52-67 | a failed image call, or a missing idea, changes nothing; otherwise the image URL becomes the returned one |
| Workflow.ImagePromptEmbeds | app.py:56 | the prompt starts with "A <type> design featuring: " and contains the whole idea. For a fixed type, different ideas give different prompts |
| Workflow.PublishGates | app.py:74-92 | a webhook call is made exactly when idea, image URL and webhook are all non-empty. An empty idea or image URL means the button is not offered, and an empty webhook gives a warning. Success is reported exactly when a call is made and it answers 200 |
| Workflow.PublishedCategory | app.py:77-84 | in a consistent session, the posted payload goes to the given webhook, describes the stored idea and carries one of the four capitalized categories |
| Workflow.IdeaStepAsWrittenConsistent | app.py:32-44 | the idea step as written keeps the session invariant; a None content leaves the product type as it was |
| Workflow.RunConsistent | app.py:21-92 | any sequence of button presses, with any service replies, keeps the session invariant, both with the idea handler as written and with the corrected one |
| Workflow.PublishedCategoryAfterAnyRun | app.py:13-84 | after any sequence of presses from a fresh session, with the handlers as written or corrected, a payload that gets posted carries one of "Mug", "T-shirt", "Poster" or "Product" as its category |
| Workflow.FunnyCatMugExample | app.py:34-83 | "Funny Cat Mug idea" classifies as "mug" and publishes with category "Mug", price "29.99" and the whole idea as title |
| Workflow.Session.Init | app.py:13-18 | the store afterwards is `InitStore` of the old store, so it holds all three keys |
| Workflow.Session.GenerateIdea | app.py:21-44 | the store's fields become `IdeaStep` of the old fields; other keys are kept. Success is reported exactly for a text reply, and the session invariant is preserved |
| Workflow.Session.GenerateImage | app.py:52-67 | no image call is made and nothing changes when the idea is empty. Otherwise the prompt is sent and the fields become `ImageStep` of the old ones, and the session invariant is preserved |
| Workflow.Session.Publish | app.py:74-92 | the request made and the outcome are `PublishRequest` and `PublishResult` of the current fields; no field changes |

## Findings

| source | as written | input that shows it | evidently intended | confidence | as-written member | corrected member |
|---|---|---|---|---|---|---|
| app.py:32-34 | The chat content is stored as the idea before `.lower()` is called on it. If the content is None, the idea becomes None (falsy) and only then does `.lower()` raise. The error message is shown, the stored idea is lost, and the old product type and image URL stay. | A chat reply whose first choice has `content` None, with a session already holding an idea (`Workflow.NoContentClearsIdeaAsWritten`). | A failed idea call stores nothing: idea, product type and image URL all stay as they were. | low, not executed | Workflow.IdeaStepAsWritten | Workflow.IdeaStep |

`Workflow.IdeaStep` is the step that `Workflow.Session.GenerateIdea` implements. `Workflow.FailedIdeaChangesNothing` proves its intended property.

## Left out

- Streamlit rendering: the page setup, the sidebar inputs, spinners, success/warning/error texts and the image preview (app.py:5-10, 42-49, 69-71). Only which message kind appears is modelled, as `ok` and `PublishOutcome`.
- The OpenAI client, the chat and image requests, and `requests.post` (app.py:23-32, 54-63, 84) are foreign network calls. Their results are the reply parameters, and their arguments other than the image prompt and the webhook payload are not modelled. The API key (app.py:9) only affects whether a call fails, so it is folded into the reply.
- The wording of the chat prompt (app.py:28-29). The image prompt is modelled as the f-string of app.py:56: the product type and the idea placed into its fixed text.
- Exception messages and the status code shown in the error text.
- Python truthiness of None: a None idea (as written) and a None image URL are modelled as "". Every later read of these fields is a truthiness test, so nothing else can tell the two apart.
- AsciiText.Lower: Unicode case mapping is not modelled. Only ASCII letters change case.
- AsciiText.Capitalize: first-character title-casing of non-ASCII letters is not modelled.
- Workflow.Session.GenerateIdea: it follows the corrected idea step `IdeaStep`, so on a reply whose content is None it keeps the stored idea, where app.py:33 overwrites it with None before line 34 raises. The as-written behaviour is `Workflow.IdeaStepAsWritten`; `Workflow.RunConsistent` and `Workflow.PublishedCategoryAfterAnyRun` are proved for both.
- Workflow.Session.Publish: it takes the webhook's reply as a parameter even when no request is made. The reply is then ignored, and the returned `request` says whether the call happened.
- Niche selection, a per-type price table, random seed generation and Printify lookup are not part of app.py. They are not modelled.
