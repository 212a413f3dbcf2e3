# Box pricing bot: a Dafny model

This project models the core of `telegram_ai_pricing_bot.py`. That file is a Telegram bot that quotes a price for custom boxes. It has three parts:

- **A pricing engine** (`text.dfy`, `pricing.dfy`):
  - The material cost is the surface area of a closed box × sheet thickness × quantity × a fixed cost per mm³.
  - A box-type extra cost is added: LEDs and transformers for a lightbox; hinges, a handle and a lock for a container; installation for a cover; cut length for a laser-cut panel.
  - The sum is multiplied by the coefficient of a pricing strategy, taken from a fixed five-entry table.
  - The box type is matched after lower-casing. The English and the Farsi keyboard labels are both accepted. Any other label costs nothing extra.
- **The strategy fallback** (`pricing.dfy`): an advisory reply that is not a key of the table is replaced by `Routine`. This is why the coefficient lookup in the price computation cannot fail.
- **The conversation** (`conversation.dfy`):
  - The stages run in a fixed linear order: LANGUAGE → WIDTH → LENGTH → HEIGHT → THICKNESS → QUANTITY → BOXTYPE → END.
  - Each handler writes its own field of the session dictionary `user_data` and returns the next stage.
  - `/cancel` ends an active conversation from any stage and leaves the dictionary as it was.

The conversation is modelled twice:

- **As values.** `Answer` says what a text message does to a `Session` (a stage plus the dictionary). `Step` says what any update does. `RunFrom` and `Run` apply a sequence of updates. `Inv` is the invariant all of them preserve. The lemmas about whole conversations use these functions.
- **As a class.** `PricingBot` keeps the stage and the dictionary as fields. It has one method per handler. `HandleMessage` is proved to do exactly what `Answer` says, and the dispatcher `HandleUpdate` exactly what `Step` says.

The dispatcher follows the conversation handler's routing:

- With no active conversation (stage END), only `/start` does anything.
- In an active conversation, a text message goes to the handler of the current stage and `/cancel` goes to the fallback.
- `/start` sent during an active conversation matches no handler and is ignored.

Where the code and its design description disagree, the model follows the code:

- The fallback strategy is `Routine`, not `Competitive`.
- The box type is asked last.
- Dimensions and quantity are stored without any positivity check.
- There is no lock option and no installation option.
- The session dictionary is never cleared, not even after a quote or a cancellation (`SessionNeverCleared`).
- The lightbox transformer count `qty // 2 + 1` is the count for the whole order, but line 169 multiplies it by `qty` again. So the transformer cost grows with the square of the quantity. The model keeps this as written (`LightBoxExtraCost`). With w = h = 0 and qty = 10 it gives 300 (`LightBoxTransformersChargedPerBox`).

Python's `qty // 2` floors. Dafny's `/` on `int` is Euclidean. The two agree when the divisor is 2, including for negative quantities. `TransformerCount` states the floor property directly.

## Model

| member | source | states |
|---|---|---|
| `Text.Lower` | telegram_ai_pricing_bot.py:162 | the lower-cased label has the same length as the input |
| `Text.LowerSpec` | telegram_ai_pricing_bot.py:162 | each character of the lower-cased label is the lower-case form of the input character at the same index, and no ASCII capital remains |
| `Text.LowerIdempotent` | telegram_ai_pricing_bot.py:162 | lower-casing a label a second time changes nothing |
| `Text.LowerKeepsUncased` | telegram_ai_pricing_bot.py:164-183 | a label with no ASCII capital, such as every Farsi label, is its own lower case |
| `Text.Contains` | telegram_ai_pricing_bot.py:64 | Python's substring test `p in s` as a scan from the left; its meaning is stated by `ContainsIff` |
| `Text.ContainsIff` | telegram_ai_pricing_bot.py:64 | the substring test `p in s` holds exactly when p occurs at some index of s |
| `Pricing.ResolveStrategy` | telegram_ai_pricing_bot.py:104-108 | the stored strategy is always a key of the coefficient table; it is the advisory reply when that reply is a key, and `Routine` otherwise |
| `Pricing.CoefficientLookupTotal` | telegram_ai_pricing_bot.py:104-108 | whatever the advisory reply, the resolved strategy is a key of the table; its coefficient is the reply's own when the reply is a key, and 2.0 (Routine's) otherwise |
| `Pricing.PriceOfResolvedOrder` | telegram_ai_pricing_bot.py:104-109 | for a strategy resolved from an advisory reply, the lookup succeeds and the price is (material cost + extra cost) × the reply's coefficient, or × 2.0 when the reply is not a key |
| `Pricing.CalculatePrice` | telegram_ai_pricing_bot.py:148-159 | (material cost + box-type extra cost) × the coefficient of the stored strategy; a lookup that must succeed, so the strategy is required to be a table key. What the price means is stated by `PriceOfResolvedOrder`, `PriceLinearExceptLightBox` and `ContainerQuoteExample` |
| `Pricing.PriceLinearExceptLightBox` | telegram_ai_pricing_bot.py:148-189 | for every box type except the lightbox, including unrecognised labels, the price of qty boxes is qty times the price of one box of the same order |
| `Pricing.ExtraCostLinearExceptLightBox` | telegram_ai_pricing_bot.py:171-189 | the container, cover, laser-cut and unrecognised extra costs of qty boxes are qty times those of one box |
| `Pricing.MaterialCost` | telegram_ai_pricing_bot.py:149-153 | the closed-box surface × thickness × quantity × the cost per mm³; its properties are stated by `MaterialCostPerBox`, `MaterialCostSymmetric` and `MaterialCostMonotone` |
| `Pricing.KindOf` | telegram_ai_pricing_bot.py:162-189 | the branch the lower-cased label selects, Unrecognised when it is none of the eight labels; stated by `DispatchIgnoresCase` and the four `…Labels` lemmas |
| `Pricing.LightBoxExtra` | telegram_ai_pricing_bot.py:164-169 | the LED and transformer cost of a lightbox order; its closed form and its dependence on qty are stated by `LightBoxExtraCost` and `LightBoxTransformersChargedPerBox` |
| `Pricing.ContainerExtra` | telegram_ai_pricing_bot.py:171-176 | hinges, handle and lock per box; `ExtraCost` states that it is 5.3 × qty |
| `Pricing.CoverExtra` | telegram_ai_pricing_bot.py:178-181 | installation per box; `ExtraCost` states that it is 3.0 × qty |
| `Pricing.LaserCutExtra` | telegram_ai_pricing_bot.py:183-186 | the cut-length cost; `LaserCutExtraCost` states its closed form and its linearity in qty |
| `Pricing.MaterialCostPerBox` | telegram_ai_pricing_bot.py:149-153 | the material cost of qty boxes is qty times the cost of one box |
| `Pricing.MaterialCostSymmetric` | telegram_ai_pricing_bot.py:150 | the closed-box surface 2(wl + wh + lh) gives the same cost when any two of width, length and height are swapped |
| `Pricing.MaterialCostMonotone` | telegram_ai_pricing_bot.py:149-153 | for non-negative inputs, the material cost does not decrease when any dimension, the thickness or the quantity grows |
| `Pricing.TransformerCount` | telegram_ai_pricing_bot.py:168 | the transformer count n satisfies 2(n − 1) ≤ qty < 2n, so n − 1 is Python's floor division qty // 2 |
| `Pricing.TransformerAtLeastOne` | telegram_ai_pricing_bot.py:168 | every order with qty ≥ 0 gets at least one transformer |
| `Pricing.ExtraCost` | telegram_ai_pricing_bot.py:161-189 | a container label costs 5.3 × qty, a cover label 3.0 × qty, and an unrecognised label 0 (no error) |
| `Pricing.LightBoxExtraCost` | telegram_ai_pricing_bot.py:164-169 | the lightbox extra cost is ((2(w + h)/100) × 0.5 + (qty // 2 + 1) × 5) × qty, and it does not depend on the length |
| `Pricing.LightBoxTransformersChargedPerBox` | telegram_ai_pricing_bot.py:168-169 | with w = h = 0 one lightbox costs 5, but ten cost 300 rather than 10 × 5: the order's six transformers at 5 each are charged once per box, so the lightbox cost is not linear in qty |
| `Pricing.LaserCutExtraCost` | telegram_ai_pricing_bot.py:183-186 | the laser-cut extra cost is 4(w + h + l) × 0.002 × qty, which is qty times the cost of one panel |
| `Pricing.FixedExtrasIgnoreDimensions` | telegram_ai_pricing_bot.py:171-181 | the container and cover extra costs are the same for any dimensions |
| `Pricing.DispatchIgnoresCase` | telegram_ai_pricing_bot.py:162 | a label and its lower-cased form select the same branch and cost the same |
| `Pricing.LightBoxLabels` | telegram_ai_pricing_bot.py:164 | both "lightbox" and "لایت‌باکس" select the lightbox branch |
| `Pricing.ContainerLabels` | telegram_ai_pricing_bot.py:171 | both "container" and "کانتینر" select the container branch |
| `Pricing.CoverLabels` | telegram_ai_pricing_bot.py:178 | both "cover" and "پوشش" select the cover branch |
| `Pricing.LaserCutLabels` | telegram_ai_pricing_bot.py:183 | both "lasercut" and "برش لیزری" select the laser-cut branch |
| `Pricing.LabelsPriceAlike` | telegram_ai_pricing_bot.py:38-51 | the English and the Farsi keyboard label of each box type have the same extra cost |
| `Pricing.ContainerQuoteExample` | telegram_ai_pricing_bot.py:148-176 | ten 1200 × 1800 × 100 mm containers from 3 mm sheet: material 295.2, extra 53, price 696.4 under Routine |
| `Conversation.Stage.Code` | telegram_ai_pricing_bot.py:12 | the input stages are numbered 0 to 6, and END alone is −1 |
| `Conversation.Stage.Next` | telegram_ai_pricing_bot.py:61-112 | the stage each handler returns; its order is stated by `StageOrder` |
| `Conversation.StageOrder` | telegram_ai_pricing_bot.py:61-112 | each handler returns the stage numbered one higher, except that BOXTYPE's handler, and only that one, returns END |
| `Conversation.LanguageFor` | telegram_ai_pricing_bot.py:64 | the language is "fa" or "en"; it is "fa" exactly when the substring test for "فارسی" succeeds |
| `Conversation.LanguageChoice` | telegram_ai_pricing_bot.py:64 | the language is "fa" exactly when "فارسی" occurs somewhere in the reply, and "en" exactly when it occurs nowhere |
| `Conversation.LanguageButtons` | telegram_ai_pricing_bot.py:59-64 | the "English" button chooses "en" and the "فارسی" button chooses "fa" |
| `Conversation.CancelLanguage` | telegram_ai_pricing_bot.py:193 | the cancellation language is the stored language when there is one, and "en" otherwise |
| `Conversation.Quote` | telegram_ai_pricing_bot.py:99-112 | after the box-type answer every field the price needs is present and well-typed, and the stored strategy has a coefficient |
| `Conversation.Answer` | telegram_ai_pricing_bot.py:63-112 | a text message, handled by the handler of the current stage, preserves the session invariant |
| `Conversation.Step` | telegram_ai_pricing_bot.py:202-214 | every update, routed as the conversation handler routes it, preserves the session invariant: each field holds its handler's kind of value, the language is "en" or "fa", the strategy is a table key, and every field a stage's handler reads is present |
| `Conversation.RunFrom` | telegram_ai_pricing_bot.py:202-214 | any sequence of updates preserves the same invariant; in particular a stored strategy always has a coefficient |
| `Conversation.MessageAdvancesOneStage` | telegram_ai_pricing_bot.py:63-112 | in an active conversation, a text message advances exactly one stage; it adds exactly its handler's fields, stores the value given, and leaves every other field as it was |
| `Conversation.CancelFromAnyStage` | telegram_ai_pricing_bot.py:192-195 | /cancel from any active stage ends the conversation, leaves the dictionary unchanged, and answers in the stored language (English by default); at END it does nothing |
| `Conversation.IdleAnswersOnlyStart` | telegram_ai_pricing_bot.py:202-214 | with no active conversation, /start moves to LANGUAGE with a welcome and keeps the stored fields; every other update is ignored |
| `Conversation.StepKeepsFields` | telegram_ai_pricing_bot.py:56-112 | no single update removes a field from the dictionary |
| `Conversation.SessionNeverCleared` | telegram_ai_pricing_bot.py:56-112 | no sequence of updates removes a field from the dictionary |
| `Conversation.RunTranscript` | telegram_ai_pricing_bot.py:58-112 | /start and seven text messages from an idle session give the welcome, the six questions in the chosen language, the "calculating" notice and the quote, and end idle with the answers stored |
| `Conversation.AnsweredOrder` | telegram_ai_pricing_bot.py:148-149 | the order read from a completed session is made of exactly the width, length, height, thickness, quantity and box type supplied, and the stored strategy |
| `Conversation.FullRun` | telegram_ai_pricing_bot.py:58-112 | /start and seven text messages from an idle session end idle with all eight fields present; the final dictionary is the old one with each answer stored and the strategy resolved from the advisor's reply; there are nine replies, the first the welcome and the last the quote computed from exactly these fields |
| `Conversation.PricingBot.constructor` | telegram_ai_pricing_bot.py:56 | a new bot has no active conversation and an empty dictionary |
| `Conversation.PricingBot.Start` | telegram_ai_pricing_bot.py:58-61 | greets and returns LANGUAGE |
| `Conversation.PricingBot.SetLanguage` | telegram_ai_pricing_bot.py:63-67 | writes only "lang" (fa or en), asks for the width in that language, and returns WIDTH |
| `Conversation.PricingBot.GetWidth` | telegram_ai_pricing_bot.py:69-73 | writes only "width", asks for the length in the stored language, and returns LENGTH |
| `Conversation.PricingBot.GetLength` | telegram_ai_pricing_bot.py:75-79 | writes only "length", asks for the height, and returns HEIGHT |
| `Conversation.PricingBot.GetHeight` | telegram_ai_pricing_bot.py:81-85 | writes only "height", asks for the thickness, and returns THICKNESS |
| `Conversation.PricingBot.GetThickness` | telegram_ai_pricing_bot.py:87-91 | writes only "thickness", asks for the quantity, and returns QUANTITY |
| `Conversation.PricingBot.GetQuantity` | telegram_ai_pricing_bot.py:93-97 | writes only "quantity" (an int), offers the box types, and returns BOXTYPE |
| `Conversation.PricingBot.GetBoxType` | telegram_ai_pricing_bot.py:99-112 | writes "boxtype" and the resolved strategy, quotes the computed price, and returns END |
| `Conversation.PricingBot.Cancel` | telegram_ai_pricing_bot.py:192-195 | changes nothing, answers with the cancellation notice in the stored language or English, and returns END |
| `Conversation.PricingBot.HandleMessage` | telegram_ai_pricing_bot.py:205-211 | routes a text message to the handler of the current stage, stores the stage it returns, and does exactly what `Answer` says |
| `Conversation.PricingBot.HandleUpdate` | telegram_ai_pricing_bot.py:202-214 | routes an update to its handler, stores the returned stage, keeps the invariant, and does exactly what `Step` says |

## Left out

- Telegram transport is not modelled. This covers building the application, reply keyboards, sending messages, polling and handler registration beyond the stage graph. A reply is modelled as a `Reply` value: a template key plus a language, or the final quote.
- The advisory request is not modelled: prompt construction, the OpenRouter HTTP call, and JSON decoding. The service is a parameter `advisor` from the session dictionary to the reply string, after `strip()`. Network failures and malformed responses raise in the source. The model does not capture those exceptions.
- Python's `float()` and `int()` parsing of the user's text is not modelled. A text message carries its already-parsed readings, `number` and `count`. The source does not handle a parse failure, so the model has no parse-failure path. `float()` also accepts "inf" and "nan", which have no `real` counterpart; the model does not cover those readings.
- IEEE-754 rounding and the `{price:.2f}` formatting are replaced by exact `real` arithmetic. In floating point, for example, the laser-cut cost 4 × (w + h + l) × 0.002 × qty with w = h = l = 1 and qty = 3 evaluates to 0.07200000000000001, where the model has exactly 0.072.
- The message texts are not modelled, except for the box-type and language labels used for dispatch.
- `user_data` is one module-level dictionary shared by every user. The model covers a single user's conversation, so it does not capture one user's answers overwriting another's.
- `Text.Lower`: models `str.lower()` only on ASCII letters. The Farsi labels have no case, so they are unchanged either way.
- Updates other than text messages and the /start and /cancel commands are not modelled (photos, other commands). The conversation handler ignores them.
