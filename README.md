# NutriScan relay: a verified model of its decision logic

The NutriScan backend is an Express relay. A phone sends it a photo. The relay asks
the OpenAI chat endpoint for a recipe, asks DALL·E for a picture of the dish and, in
the `server.cjs` deployment, copies the picture into a Supabase storage bucket. It
also relays verification SMS through Twilio. Between those calls sits a small amount
of deterministic logic:

- which request is refused, and with which status;
- the prompts it builds;
- how it maps an upstream error to a user message;
- how it pulls the JSON object out of the model's prose and checks its shape;
- the default calorie count;
- the key under which an image is stored, and the fallback when storing fails;
- how the final recipe record and the `imageSource` / `imageGenerationSuccess` flags are composed;
- how a Twilio error code becomes a message.

This project models that logic in Dafny and proves properties of it.

Every external call is an input to the model: the chat completion, the image
generator, the image download, the upload, the public-URL lookup, the SMS send and
`JSON.parse` itself. Each is a function from the request the relay makes to the
outcome it gets back (`Outbound.Services`, `Sms.SendOutcome`). The two handlers
return, next to their reply, the list of outbound calls they made (`Outbound.Call`).
This is what lets the model state "refused before any outbound call" and "nothing
downstream runs".

`server.cjs` and `server.js` are the same pipeline. `server.js` has no storage
stage, no recipe-id check on `/api/generate-image`, and a plain `dalle`/`failed`
image source. The handlers take a `withStorage` flag. Every handler property is
proved for both values, unless it names one.

JavaScript semantics the decisions depend on are written out in `JsValues`:

- truthiness;
- `a.b` versus `a?.b`;
- what a template literal prints for a value, and when it throws instead: an object
  or array with its own `toString` key, which parsed JSON cannot make callable (the
  TypeError text is Node's);
- `Array.prototype.join`;
- `String.prototype.includes`;
- the object spread `{...v}`;
- a property assignment `v.key = x`, which sticks to objects and arrays (an array keeps named
  properties next to its elements) and is lost on primitives, as in sloppy-mode CommonJS.

Modules, one per file: `JsValues`, `EmbeddedJson`, `Calories`, `Prompts`,
`Replies`, `Upstream`, `RecipeParser`, `Outbound`, `ImageGeneration`, `Storage`,
`RecipeHandler`, `ImageHandler`, `Sms`. The recipe and image handlers are modelled
once and cover both files. The line ranges below cite `server.cjs`. The matching
`server.js` lines are:

| server.js lines | what they hold |
|---|---|
| 15-77 | generateImageWithDalle |
| 80-335 | handleGenerateRecipes |
| 187-222 | the error mapping and reply reading |
| 233-249 | extraction and the structural check |
| 252-277 | calorie default |
| 286-326 | outcome assembly |
| 338-387 | handleGenerateImage |

The calorie default keeps a truthy negative `calories` number as it is. So the
guarantee proved is "afterwards `calories` is a nonzero number", not "a positive
number". That follows the code at server.cjs:375, which only tests falsiness and type.

## Model

| member | source | states |
|---|---|---|
| JsValues.Get | server.cjs:347 | `v.key` throws exactly when `v` is null or undefined |
| JsValues.OptGet | server.cjs:347 | `v?.key` is undefined on null or undefined, and otherwise agrees with `v.key` |
| JsValues.ToStr | server.cjs:554 | a template literal prints a value exactly when it is printable (undefined, a primitive, an object without an own `toString` key, an array without one whose elements print or which has its own `join`), and then gives the printed text; otherwise it throws the conversion TypeError |
| JsValues.SpreadFields | server.cjs:436-441 | `{...v}` copies exactly an object's fields; an array's named properties and its elements under their decimal indices, and no other key; a string's characters under their indices, and no other key; nothing from null, booleans or numbers |
| JsValues.SetMember | server.cjs:399 | `v.key = x` sets the key on an object or an array and leaves every other property (and an array's elements) as it was; on a primitive it changes nothing |
| JsValues.NatStrIsDigits | server.cjs:436-441 | a printed index consists of decimal digits only, so a spread array's index keys never collide with a named property such as `calories` |
| JsValues.NatStrInjective | server.cjs:436-441 | distinct indices print as distinct keys, so the spread of an array or string loses no element |
| EmbeddedJson.FirstIndexOf | server.cjs:356 | the index found holds the character and no earlier index does; none exactly when the character is absent |
| EmbeddedJson.LastIndexOf | server.cjs:356 | the index found holds the character and no later index does; none exactly when the character is absent |
| EmbeddedJson.GreedyBraceMatchIsRegexMatch | server.cjs:356-357 | the computed span is the leftmost-longest match of `/\{[\s\S]*\}/`: from the first `{` to the last `}` after it; there is no span exactly when no `{` has a `}` after it |
| EmbeddedJson.LeftmostGreedyMatchUnique | server.cjs:356 | a text has at most one leftmost-greedy match of the pattern |
| EmbeddedJson.JsonCandidate | server.cjs:356-361 | the text handed to JSON.parse is exactly the substring that the leftmost-greedy match of `/\{[\s\S]*\}/` spans, and the whole content when the pattern matches nothing |
| EmbeddedJson.ProseWrappedParsesLikeBare | server.cjs:356-358 | a brace-delimited object wrapped in prose without braces parses exactly as the bare object does |
| EmbeddedJson.BareCandidate | server.cjs:356-358 | a bare brace-delimited object is handed to JSON.parse unchanged |
| EmbeddedJson.NoBracePairParsesWhole | server.cjs:359-361 | content with no `{` … `}` pair is parsed whole |
| Calories.Lower | server.cjs:379 | lower-casing keeps the length and maps each character through the ASCII and Latin-1 capital mapping |
| Calories.MealTypeCalories | server.cjs:379-396 | the switch yields one of 350, 500, 625, 250 and 400, and yields 400 exactly when the lowered meal type is none of the eight `case` labels |
| Calories.EstimateCalories | server.cjs:376-397 | no meal type gives 400; a non-string truthy meal type throws; a string lowering to `breakfast`/`petit-déjeuner` gives 350, `lunch`/`déjeuner` 500, `dinner`/`dîner` 625, `snack`/`collation` 250, and any other string 400 |
| Calories.WithCalorieDefault | server.cjs:375-400 | a truthy number is left alone; otherwise an object or array recipe gets the meal-type estimate as its `calories` property, keeps every other property (and an array its elements), and ends with a nonzero numeric `calories`; on a string, number or boolean recipe the write is lost; it throws exactly when a default is needed and the meal type is truthy but not a string |
| Calories.LowerIsIdempotent | server.cjs:379 | lower-casing twice is lower-casing once |
| Calories.EstimateIgnoresCase | server.cjs:379-396 | the estimate for a meal-type string equals the estimate for its lower-cased form |
| Calories.AccentedCapitalsMatch | server.cjs:388-391 | `DÎNER` maps to the dinner estimate, 625 |
| Prompts.ImagePrompt | server.cjs:143-154 | the closed-form photography prompt or the TypeError it raises; its meaning is stated by `BuildImagePrompt` (the `+=` sequence equals it), `ImagePromptFailures` (when it throws), `ImagePromptContents` (its four parts) and the frame, description and ingredient lemmas below |
| Prompts.BuildImagePrompt | server.cjs:143-154 | the `+=` construction, converting the title and a truthy description one at a time, yields the image prompt or its TypeError |
| Prompts.ImagePromptFailures | server.cjs:143-152 | the prompt throws exactly when the title, a truthy description or one of the first three ingredients of an array cannot be printed, or when ingredients with a positive length are not an array; an unprintable title or description throws the conversion error |
| Prompts.ImagePromptFrame | server.cjs:143-154 | the prompt begins `Professional food photography of <title>` and ends with the fixed styling suffix |
| Prompts.ImagePromptParts | server.cjs:143-154 | a built prompt for an ingredient array is the prefix and title, the description part, the featuring part when the array is non-empty, and the styling suffix, in that order |
| Prompts.ImagePromptContents | server.cjs:143-154 | for an ingredient array, the prompt is built exactly when the title, a truthy description and the first min(3, n) ingredients can be printed; it is then cut into four parts: `Professional food photography of <title>`, then `, <description>` when the description is truthy (else nothing), then `, featuring ` and the first min(3, n) ingredients joined by `, ` when n > 0 (else nothing), then the styling suffix |
| Prompts.DescriptionShowsIffTruthy | server.cjs:145-147 | the description changes the prompt exactly when it is truthy (what it adds is stated by `ImagePromptContents`) |
| Prompts.IngredientsShowIffNonEmpty | server.cjs:149-152 | an ingredient array leaves the prompt buildable exactly when the prompt without it is buildable and its first three elements print; it then changes the prompt exactly when it is non-empty (what it adds is stated by `ImagePromptContents`) |
| Prompts.OnlyFirstThreeIngredients | server.cjs:150 | ingredients past the third never change the prompt |
| Prompts.RecipePrompt | server.cjs:226-278 | the block sequence of the recipe instruction, or the TypeError of an unprintable meal type or dietary preference; `BuildRecipePrompt` proves the `+=` code builds it and `RecipePromptStructure` states when it throws and which blocks appear under which conditions |
| Prompts.BuildRecipePrompt | server.cjs:226-278 | the `+=` construction, converting a truthy meal type and then a truthy dietary preference, yields the recipe prompt's block sequence or its TypeError |
| Prompts.RecipePromptStructure | server.cjs:226-278 | the instruction throws the conversion error exactly when a truthy meal type or dietary preference cannot be printed; otherwise it opens with the intro, closes with the response format tagged with a truthy meal type, and has the meal-type line exactly when the meal type is truthy, the diet line exactly when the diet is truthy, and the variation block exactly when `regenerate` is truthy |
| Prompts.Temperature | server.cjs:300 | the temperature is 0.9 when regenerating and 0.7 otherwise |
| Prompts.CompletionRequestFor | server.cjs:280-301 | the chat-completion body (model, prompt, inline image, token limit, temperature), or the TypeError of the instruction; `RegenerateAltersRequest` states how `regenerate` changes it and what it leaves alone |
| Prompts.RegenerateAltersRequest | server.cjs:226-301 | for any truthy and any falsy `regenerate`, the request is built in both cases or in neither; when built, regenerating raises the temperature and adds the variation demand, and leaves the model, image and token limit alone |
| Upstream.ErrorDetails | server.cjs:315-327 | a body without a truthy `error` gives the empty message; the message throws exactly when the body has a truthy `error` whose provider message cannot be printed |
| Upstream.ProviderTextShownUnlessAuthOrRate | server.cjs:316-326 | a provider message that cannot be printed throws the conversion error whatever the status; otherwise 401 and 429 give fixed texts, 400 gives `Erreur de traitement: <msg>`, and any other status gives `Erreur service (<status>): <msg>` |
| Upstream.UpstreamFailureAsWritten | server.cjs:310-335 | as written: a parsed non-null error body whose message builds keeps the upstream status with that message; a body the parser rejects, the JSON `null`, or an unprintable provider message ends in the 500 catch-all |
| Upstream.UnreadableErrorBodyLosesStatus | server.cjs:313-331 | as written, an error body JSON.parse rejects, or one whose truthy `error.message` cannot be printed, turns any non-500 status into 500 |
| Upstream.UpstreamFailure | server.cjs:310-335 | the reply status is the upstream status; a parsed body whose message builds gives the mapped message; an unreadable or `null` body, or an unprintable provider message, gives the raw text |
| Upstream.ReadReplyAsWritten | server.cjs:337-345 | as written: the reply stops exactly when the body does not parse, and then with the catch-all rather than the processing error; otherwise the parsed value is carried on |
| Upstream.UnreadableReplyMissesItsMessage | server.cjs:338-345 | as written, a 2xx body that is not JSON gets the catch-all answer instead of the processing error |
| Upstream.ReadReply | server.cjs:337-345 | a 2xx body that is not JSON stops with the processing error; otherwise the parsed value is kept |
| Upstream.ReplyContent | server.cjs:347-351 | a null `data` or nullish `choices` gives the catch-all; otherwise the value at `choices[0]?.message?.content` is carried on exactly when it is truthy, whatever its type, and a falsy one is "no recipe" |
| RecipeParser.ValidateResponse | server.cjs:354-372 | a content that is not a string (no `match`) and a parse failure both give the recipe-data error; a parsed `null` gives the catch-all (the property read throws); any other parsed value lacking a truthy `identifiedIngredients` or `recipe` gives the incomplete-recipe 500; the handler carries on exactly when the content is a string whose parsed value has truthy `identifiedIngredients` and `recipe`, and carries those two values on |
| RecipeParser.CompleteRecipe | server.cjs:374-400 | it stops with the catch-all exactly when the calorie default throws, and otherwise carries the defaulted recipe |
| ImageGeneration.GenerateImageWithDalle | server.cjs:138-200 | a prompt that throws gives a failure and makes no call; otherwise one generator call with the built prompt; success exactly when the generator answers a non-empty URL, which is returned; a failure always has the empty URL, and its error is `Aucune image générée par DALL·E` for an empty URL, `DALL·E API error: <status>` for a rejection, and the thrown message otherwise |
| Storage.StorageKey | server.cjs:50 | the key is `recipe-` + id + `.png`, and the id can be read back from it |
| Storage.StorageKeyInjective | server.cjs:50 | two ids share a key exactly when they are equal |
| Storage.SupabasePublicUrl | server.cjs:131-135 | the public URL is the lookup of the `recipe-<id>.png` key; `StoreImageInSupabase` states that a successful store answers exactly this URL |
| Storage.StoreImageInSupabase | server.cjs:49-128 | it downloads the source first; every upload goes to the bucket under the id's key with upsert; success exactly when the download is 2xx and non-empty and the upload succeeds, and then the result is the key's public URL; any failure falls back to the source URL |
| RecipeHandler.Analyse | server.cjs:288-400 | a network failure gives 503; a non-2xx upstream answer gives exactly the `UpstreamFailure` reply, so its status is passed through with the mapped message; every stop has a non-2xx status; carrying on means a 2xx reply, truthy ingredients, and, when the recipe is an object or an array, a nonzero numeric `calories` |
| RecipeHandler.RunImageStage | server.cjs:411-431 | the final URL is empty when generation failed; it is the DALL·E URL without the store; with the store it is the public URL when storing succeeded and the DALL·E URL otherwise; uploads overwrite the id's key; without the store only the generator is called |
| RecipeHandler.ImageSource | server.cjs:440 | the source is one of `failed`, `dalle`, `supabase`; it is `failed` exactly when generation failed, and `supabase` only with the store and a URL containing `supabase` |
| RecipeHandler.ImageGenerationSuccess | server.cjs:456 | the flag implies generation succeeded; without the store it equals generation success; with the store it is set exactly when the source is `supabase` |
| RecipeHandler.FinalRecipe | server.cjs:436-441 | the record has `imageUrl`, `id` and `imageSource` as given, and every other field of the spread recipe unchanged |
| RecipeHandler.ImageStep | server.cjs:411-431 | the image stage with `finalImageUrl` reassigned in place computes the same URL, generation flag and call list as the stage's specification function |
| RecipeHandler.GenerateRecipes | server.cjs:203-466 | the recipe pipeline for both deployments, as a reply and the outbound calls made; what it answers is stated by `HandleGenerateRecipes` and the lemmas `MissingImageRefusedFirst` to `StorageOnlyChangesImageFields` below |
| RecipeHandler.HandleGenerateRecipes | server.cjs:203-466 | the handler with early returns (including the instruction's TypeError) and a reassigned final URL computes the recipe pipeline's reply and call list |
| RecipeHandler.MissingImageRefusedFirst | server.cjs:203-301 | no image gives 400 whatever the key and the services; an image without the API key gives the 503 for the missing key; with both, an instruction that cannot be built gives the 500 catch-all; no call is made exactly when the image or the key is missing or the instruction cannot be built |
| RecipeHandler.UnprintablePreferencesFailBeforeCall | server.cjs:236-243 | with the image and the key, the request ends in the 500 catch-all with no call exactly when a truthy meal type or dietary preference cannot be printed |
| RecipeHandler.FailuresStopBeforeImages | server.cjs:303-400 | every error answer is non-2xx, and after an error at most the completion call was made |
| RecipeHandler.IncompleteRecipeStopsDownstream | server.cjs:369-372 | a parsed reply lacking a truthy `identifiedIngredients` or `recipe` ends in 500 with only the completion call made |
| RecipeHandler.NonStringContentIsUnparsable | server.cjs:355-365 | a 2xx reply whose `choices[0].message.content` is truthy but not a string ends with 500 and the recipe-data error, after only the completion call |
| RecipeHandler.FinalRecipeKeepsCalories | server.cjs:436-441 | the spread carries an object's or an array's `calories` property into the final record unchanged |
| RecipeHandler.AssembliesAgreeOffImageFields | server.cjs:434-456 | two success replies built from the same analysed recipe agree on the ingredients, the timing and every recipe property except `imageUrl`, `id` and `imageSource` |
| RecipeHandler.ReadyReplyIsAssembled | server.cjs:409-458 | once the analysis carries on, the reply is the assembly of the parsed recipe, the image stage run under the fresh id, and the clock |
| RecipeHandler.ReadyOutcome | server.cjs:404-458 | on success, in both deployments: status 200, the identified ingredients, the elapsed time, the `recipe_<time>_<suffix>` id, an object recipe's own fields unchanged, and a nonzero numeric `calories` when the recipe is an object or an array |
| RecipeHandler.ReadyImageFields | server.cjs:411-441 | on success: a failed generation gives an empty `imageUrl` and `failed`; without the store the DALL·E URL and `dalle`; with it the public URL when storing succeeded, else the DALL·E URL, with `imageSource` and `imageGenerationSuccess` following whether that URL contains `supabase` |
| RecipeHandler.SourceTracksStorage | server.cjs:440 | with the store, a public URL naming supabase and a DALL·E URL that does not, the source is `supabase` and the success flag is set exactly when storing succeeded |
| RecipeHandler.ImageOutcomesKeepStatus | server.cjs:411-458 | changing the generator, download, upload or public-URL outcomes never changes the status, the ingredients, the timing or the recipe's other fields |
| RecipeHandler.StorageOnlyChangesImageFields | server.js:295-326 | the deployments with and without the store agree on status, errors, ingredients, timing and all recipe fields but the three image fields; the calls without the store are a prefix of the calls with it |
| ImageHandler.GenerateImage | server.cjs:470-525 | the image endpoint for both deployments, as a reply and the outbound calls made; its answers are stated by `ImageRequestValidation`, `ImageReplyFollowsGenerator` and `UploadsAreKeyedByRecipe` |
| ImageHandler.StoredId | server.cjs:50 | the storage id is the recipe id as printed, and exists exactly when the recipe id can be printed |
| ImageHandler.ImageRequestValidation | server.cjs:474-486 | 400 exactly when the title, or with the store the recipe id, is missing; no call is then made; a missing title gives 400 before the key check; a complete request without the API key gives 503 `Service de préparation d'images indisponible` with no call |
| ImageHandler.ImageReplyFollowsGenerator | server.cjs:496-523 | success exactly when generation succeeds and, with the store, the recipe id can be printed; a generation failure is 500 carrying the generator's error, or `Échec de la préparation d'image` when that is empty; an unprintable id after generation is the 500 catch-all with no storage call; with the store `storedInSupabase` is the storage outcome and the URL falls back to DALL·E's; without it the DALL·E URL is answered |
| ImageHandler.UploadsAreKeyedByRecipe | server.cjs:500 | every upload overwrites, and two requests write the same object exactly when their recipe ids print the same |
| Sms.VerificationText | server.cjs:554 | the message is the fixed lead, the code as printed, then the fixed tail; it throws the conversion error exactly when the code cannot be printed |
| Sms.SmsErrorMessage | server.cjs:569-576 | code 21211 gives the invalid-number text; code 21614 gives the invalid-for-country text; otherwise a truthy error message; otherwise the default text; the result is never falsy |
| Sms.SendVerificationSms | server.cjs:532-583 | the verification-SMS endpoint, as a reply and the messages sent; its answers are stated by `SmsSentOnlyWhenComplete` and `SendFailureMapping` |
| Sms.SmsSentOnlyWhenComplete | server.cjs:534-565 | a message is sent exactly when the phone, the code and the client are all there and both fields can be printed; a missing field gives 400 first; both fields without a client give 503; an unprintable field then gives 500 with the conversion error and nothing sent; the one message sent goes to the given number and carries the code; a successful send answers `success` with the provider's message id |
| Sms.SendFailureMapping | server.cjs:566-582 | a failed send is a 500 with a truthy error, and a known code wins over the error's own text |

## Left out

- HTTP plumbing is not modelled: Express, CORS, body limits, route registration and `app.listen`.
- Console logging is not modelled, and neither are the `details` field of the catch-all answers (the runtime's own message text) and the `User-Agent` and organisation headers.
- The network, Supabase, Twilio and `JSON.parse` are inputs to the model. The JSON grammar is not modelled.
- `Date.now()` and the `Math.random()` id suffix are parameters (`RecipeHandler.Clock`). The suffix is any string, not only nine base-36 digits.
- The environment checks at start-up are not modelled. The OpenAI key and the Twilio client are booleans.
- The `OPENAI_ORG_ID` header is not modelled.
- The unreachable post-upload verification after `return` (server.cjs:111-121) is not modelled.
- The merge-conflict markers (server.cjs:608-618) are not modelled.
- The `style` and `size` arguments passed to the image generator are not modelled, because it ignores them.
- ImageGeneration.GenerateImageWithDalle: the fixed fields of the DALL·E request body (`model: 'dall-e-3'`, `n: 1`, `size: '1024x1024'`, `quality: 'standard'`, `style: 'vivid'`, server.cjs:162-169) are not recorded; the call is modelled by its prompt only, because those fields never vary.
- The exact French wording of the recipe prompt is not modelled. `Prompts.RecipePrompt` keeps its conditional block structure and the values it interpolates.
- Numbers are integers: fractional JSON numbers are not modelled. Integers are printed in plain decimal, so values of 1e21 and above are printed differently from JavaScript.
- Calories.Lower: lower-cases ASCII and Latin-1 capitals only. Every `case` label of the meal-type switch is reachable this way, but not every spelling JavaScript lowers onto one: U+212A KELVIN SIGN lowers to `k`, so `SNAC\u212A` gives 250 in the source and 400 in the model. Other Unicode case mappings are not modelled.
- Strings are sequences of Unicode scalar values, not UTF-16 code units. So the index keys of a spread string, and `ElementZero` on a string, differ from JavaScript for characters outside the Basic Multilingual Plane.
- Prompts.HasIngredients: an object with a `length` property that is not a number is treated as having no ingredients. JavaScript compares such a `length` with 0 after a numeric conversion, which can succeed (`"5"`) or throw.
- ImageGeneration.GenerateImageWithDalle: a truthy URL that is not a string is not modelled (the outcome's `url` is a string). With the store, such a URL would make `finalImageUrl.includes` throw.
- Sms.SendVerificationSms: the thrown Twilio error is modelled by its `code` and `message` only. A thrown value that is null or undefined is not modelled; the source would fail inside its own catch block.

## Findings

| source | as written | input that shows it | evidently intended | confidence | as-written member | corrected member |
|---|---|---|---|---|---|---|
| server.cjs:310-335 | After `response.json()` fails on an error body, the catch block calls `response.text()` on a body that is already consumed, which rejects. The request ends in the outer catch with 500 `Erreur interne du serveur`. The same happens when the body is the JSON `null`, or when its truthy `error.message` cannot be printed (an object with its own `toString` key), since the interpolation throws inside the same `try`. The same code is at server.js:187-212. | upstream status 429 with body `Too Many Requests` (not JSON) | reply with status 429 and `Erreur service (429): Too Many Requests` | not executed; follows the Fetch standard rule that a body can be read once | Upstream.UnreadableErrorBodyLosesStatus | Upstream.UpstreamFailure |
| server.cjs:337-345 | After `response.json()` fails on a 2xx body, the catch block calls `response.text()` on the consumed body, which rejects. The request ends in the outer catch with `Erreur interne du serveur`. The same code is at server.js:214-222. | status 200 with body `<html>…` | 500 `Erreur de traitement des données. Veuillez réessayer.` | not executed; follows the Fetch standard rule that a body can be read once | Upstream.UnreadableReplyMissesItsMessage | Upstream.ReadReply |

The handlers use the corrected members. `Upstream.UpstreamFailureAsWritten` and
`Upstream.ReadReplyAsWritten` define the code as written.
