# AgriMitra backend core in Dafny

This project models the deterministic core of the AgriMitra farming
assistant's backend and proves properties of that model. The core has four
parts.

- **Government schemes** (`Schemes`): a fixed table of five schemes.
  - Keyword search, with its category filter, its keyword fallback and its limit of five results.
  - Case-insensitive lookup of one scheme by name, or 404.
  - The list of popular schemes.
- **Chat service** (`LangChainService`): the language model is a parameter.
  - The message list of a chat turn: system prompt, the last five history items, and the current message, with a Kannada instruction in front when asked for.
  - The three suggested follow-up actions chosen by keyword groups.
  - The post-processing of an image-analysis answer into five fields: the disease found, a confidence score read by four regular expressions, up to five action lines and up to three remedy lines.
- **Speech service** (`Speech`, with `Base64`): the Azure Speech SDK calls are parameters.
  - Language and voice selection.
  - How a recognition result becomes a transcript and a confidence.
  - The two-attempt recognition.
  - The synthesis success rule.
  - The endpoints, which carry audio as base64 text (section 4 of RFC 4648).
  - The supported-languages list.
- **Market service** (`Market`): the clock and the random source are parameters.
  - Prices from a fixed table of five crops.
  - Advice by trend.
  - The hold-or-sell rule.
  - Price histories with a three-day forecast.
  - The popular-crops summary.

Helper modules:
- `Wrappers`: Option and Result types.
- `Seqs`: filter, map, slicing and subsequences.
- `Text`: the Python string operations the code relies on, including `in`, `lower()`, `title()`, `strip()`, `split()` and `join`.

Form of the model:
- Stepwise loops are `method`s with loop invariants, proved against specification functions.
- The speech configuration, which every call overwrites, is a `class` with two fields.
- Everything else is functions and lemmas.

## Model

| member | source | states |
|---|---|---|
| `Schemes.MatchPass` | backend/api/routes/schemes.py:218-231 | The text-matching loop keeps, in table order, exactly the schemes that pass the category filter and contain some query word. |
| `Schemes.KeywordFallback` | backend/api/routes/schemes.py:234-251 | The fallback loop stops at the first keyword in mapping order that occurs in the query. It takes every scheme of that keyword's categories, or nothing when no keyword occurs. |
| `Schemes.SearchSchemes` | backend/api/routes/schemes.py:216-266 | A search returns at most five schemes: the first five of the full match list. The total is the full count, and the five fixed suggestions are included. |
| `Schemes.FallbackPicks` | backend/api/routes/schemes.py:246-251 | The index where the keyword loop stops is the keyword the fallback specification selects. |
| `Schemes.FirstPassAdmission` | backend/api/routes/schemes.py:221-231 | A scheme is admitted by the first pass exactly when all three hold: it is in the table, it passes an active category filter, and some whitespace-separated word of the lower-cased query is a substring of its lower-cased name, description and benefits. |
| `Schemes.FirstPassRespectsCategory` | backend/api/routes/schemes.py:226-227 | With a non-empty category, the first pass admits only schemes of that category. |
| `Schemes.BlankQueryHasNoKeyword` | backend/api/routes/schemes.py:246-247 | No fallback keyword occurs in a blank query. |
| `Schemes.BlankQueryFindsNothing` | backend/api/routes/schemes.py:218-251 | An empty or all-whitespace query finds no scheme. |
| `Schemes.FallbackWhenFirstPassEmpty` | backend/api/routes/schemes.py:234-251 | When the first pass is empty, the result is every scheme in the categories of the first matching keyword, whatever the category argument. |
| `Schemes.FallbackUsesMappingOrder` | backend/api/routes/schemes.py:235-247 | Mapping order decides, not text order: "insurance credit" falls back to loans. |
| `Schemes.FallbackIgnoresCategory` | backend/api/routes/schemes.py:226-251 | A loan scheme is returned for the query "credit" with category "insurance": the category filter does not apply to the fallback. |
| `Schemes.CreditFallsBackToLoans` | backend/api/routes/schemes.py:235-237 | The query "credit" selects the loan category. |
| `Schemes.MatchesInTableOrder` | backend/api/routes/schemes.py:221-251 | The full match list is a subsequence of the table. A table without repeats gives a match list without repeats. |
| `Schemes.DatabaseNamesDistinct` | backend/api/routes/schemes.py:38-214 | The five scheme names are pairwise distinct, so the table has no repeated record. |
| `Schemes.GetSchemeDetails` | backend/api/routes/schemes.py:322-330 | A scheme is found exactly when some table name equals the argument ignoring case, and it is the first such. Otherwise the status is 404. |
| `Schemes.GetPopularSchemes` | backend/api/routes/schemes.py:301-320 | The popular list is the table entries with a popular name, in table order, projected to four fields. An entry is on it exactly when it is such a projection. |
| `Schemes.PopularOfDatabase` | backend/api/routes/schemes.py:304-318 | On the shipped table the popular list is the projections of its first three schemes. |
| `Schemes.PopularFlags` | backend/api/routes/schemes.py:304-312 | The first three table entries are on the popular list and the last two are not. |
| `LangChainService.SuggestedActions` | backend/services/langchain_service.py:181-217 | There are always exactly three suggestions. |
| `LangChainService.FirstGroupHit` | backend/services/langchain_service.py:186-210 | Finds the first keyword group, in priority order, that has a word in the text, and no earlier group has one. |
| `LangChainService.SuggestionsByPriority` | backend/services/langchain_service.py:181-217 | The if/elif cascade is a first-match search over the four groups in priority order. The first group with a word in the lower-cased message decides; no hit gives the default suggestions. |
| `LangChainService.AsChatMessage` | backend/services/langchain_service.py:98-102 | A history item becomes a human message exactly when its role is "user", otherwise an AI message, and never a system message. The content is kept. |
| `LangChainService.ProcessChatMessage` | backend/services/langchain_service.py:91-124 | The model is called with the prompt of the turn and its error is passed on. A reply carries the model's answer, conversation id "default", and the suggestions for the message after the Kannada instruction was added. |
| `LangChainService.PromptShape` | backend/services/langchain_service.py:95-108 | The prompt has two more messages than the history window: the system prompt first, the current message last, and between them the last five history items (or all of them) in original order, each mapped by role. |
| `LangChainService.KannadaInstructionIff` | backend/services/langchain_service.py:105-106 | The current message changes exactly when the language is "kn". The change puts the instruction in front and keeps the message as the suffix. |
| `LangChainService.DiseaseDetectedMeaning` | backend/services/langchain_service.py:231-244 | A disease is reported exactly when some listed disease occurs in the lower-cased text. It is the title-cased first one in list order. |
| `LangChainService.CompoundMildewsShadowed` | backend/services/langchain_service.py:235-244 | "Powdery Mildew" and "Downy Mildew" are never reported, because "mildew" comes earlier in the list and occurs in both. |
| `LangChainService.MatchAt` | backend/services/langchain_service.py:248-256 | What a confidence pattern captures at a position is a non-empty run of ASCII digits. |
| `LangChainService.Search` | backend/services/langchain_service.py:256 | A search result is a non-empty run of digits. |
| `LangChainService.SearchMeaning` | backend/services/langchain_service.py:256 | A search finds nothing exactly when no position matches. Otherwise it reports the capture at the leftmost matching position. |
| `LangChainService.FirstPatternHit` | backend/services/langchain_service.py:255-259 | Finds the first pattern in list order that matches somewhere, and all earlier patterns match nowhere. |
| `LangChainService.ConfidenceScoreMeaning` | backend/services/langchain_service.py:246-259 | A confidence is reported exactly when one of the four patterns matches somewhere, and it is never negative. |
| `LangChainService.ConfidenceScoreValue` | backend/services/langchain_service.py:248-259 | A reported confidence is the number captured by the first pattern in list order that matches anywhere, at its leftmost match, divided by 100. |
| `LangChainService.ConfidenceWordGivesScore` | backend/services/langchain_service.py:251 | "confidence" followed by separators and a digit always yields a score, because the third pattern needs no percent sign. |
| `LangChainService.ClassifyLine` | backend/services/langchain_service.py:268-289 | A blank stripped line is skipped. A line with an action word is a remedy when it also has a remedy word and an action otherwise. A line without one is a remedy or an action only when it is a numbered item longer than ten characters, a remedy exactly when it has "neem", "organic" or "local". Every other line is skipped. |
| `LangChainService.SortLines` | backend/services/langchain_service.py:262-292 | The lists are the first five action lines and the first three remedy lines of the stripped lines, in text order. |
| `LangChainService.FindDisease` | backend/services/langchain_service.py:241-244 | The disease loop reports the title-cased first listed disease found, or nothing. |
| `LangChainService.FindScore` | backend/services/langchain_service.py:255-259 | The confidence loop reports the first matching pattern's number over 100, or nothing. |
| `LangChainService.ParseImageAnalysis` | backend/services/langchain_service.py:219-294 | The five fields are as follows: the text itself, the detected disease, the confidence score, the first five action lines and the first three remedy lines. |
| `LangChainService.LinesPartition` | backend/services/langchain_service.py:266-292 | Every kept line is a non-empty stripped line of the text. No line is both an action and a remedy, and both lists keep text order. |
| `LangChainService.RemedyRule` | backend/services/langchain_service.py:272-289 | A line is a remedy exactly when it is non-blank and one of two things holds: it has an action word and a remedy word, or it has no action word, is a numbered item longer than ten characters and has "neem", "organic" or "local". |
| `LangChainService.ActionRule` | backend/services/langchain_service.py:272-287 | A line is an action exactly when it is non-blank and one of two things holds: it has an action word but no remedy word, or it has no action word, is a numbered item longer than ten characters and has none of "neem", "organic" and "local". |
| `LangChainService.ShortRemedyWordsMakeRemedies` | backend/services/langchain_service.py:276-289 | A kept line containing one of the three short remedy words is always a remedy, whichever rule kept it. |
| `Speech.SelectVoice` | backend/api/routes/speech.py:174-176 | A non-empty explicit voice is always used. |
| `Speech.FullLanguageCases` | backend/api/routes/speech.py:44-49 | The four short codes map to their locales. Every other code passes through unchanged, so mapping twice is mapping once. |
| `Speech.SelectVoiceCases` | backend/api/routes/speech.py:51-56 | Without an explicit voice, a short code and its locale select the same voice. Kannada, Hindi and Tamil get their own neural voice, and a language outside the tables gets the default voice. |
| `Speech.SupportedLanguagesAgree` | backend/api/routes/speech.py:255-265 | Every full code on the supported-languages list is what the language mapping gives for its short code, and has a voice. The list's codes are exactly the mapped codes. |
| `Speech.DetailedConfidence` | backend/api/routes/speech.py:141-151 | The confidence is the first `NBest` entry's confidence when the JSON parses, has a non-empty `NBest` list and that entry carries one. In every other case it is 0.0. |
| `Speech.ProcessRecognitionResult` | backend/api/routes/speech.py:134-168 | Recognised speech keeps its text, and its confidence is the first `NBest` entry's when there is one, else 0.0. Any other reason gives empty text with confidence 0.0. |
| `Speech.ConfidenceSource` | backend/api/routes/speech.py:139-156 | A non-zero confidence comes only from recognised speech whose first `NBest` entry carries exactly that confidence. |
| `Speech.FallbackCases` | backend/api/routes/speech.py:94-128 | The second attempt decides whenever the first is not recognised non-blank speech, including when the first raised. The result is an error exactly when the first is not accepted and the second raises. |
| `Speech.BlankFirstAttemptDiscarded` | backend/api/routes/speech.py:96 | A first attempt that recognised only whitespace is discarded in favour of the second. |
| `Speech.SynthesisOutcome` | backend/api/routes/speech.py:189-194 | Audio is returned exactly when synthesis completed. Otherwise the failure is raised with its reason. |
| `Speech.SpeechService.SpeechToText` | backend/api/routes/speech.py:58-132 | Sets the recognition language to the mapped locale and leaves the voice alone. The outcome is the two-attempt fallback over a 16 kHz, 16-bit mono attempt and an attempt without a format. |
| `Speech.SpeechService.TextToSpeech` | backend/api/routes/speech.py:170-198 | Sets the synthesis voice to the selected voice and leaves the recognition language alone. The outcome is the synthesis outcome of that voice. |
| `Speech.ConvertSpeechToText` | backend/api/routes/speech.py:203-230 | Undecodable base64 gives 500 and leaves the service alone. Otherwise the recognition language becomes the mapped locale and the transcript is the fallback's. A failure becomes 500 with the message prefixed. The voice is never touched. |
| `Speech.ConvertTextToSpeech` | backend/api/routes/speech.py:232-253 | Succeeds exactly when synthesis completed. Then the text returned is the base64 encoding of the synthesized audio, so it decodes back to that audio, and the format is "wav". A failure is 500 with "Speech synthesis failed: " in front of the service's message. The voice becomes the selected voice and the recognition language is kept. |
| `Base64.Encode` | backend/api/routes/speech.py:244 | An encoding has four characters for every started group of three bytes. |
| `Base64.DecodeEncode` | backend/api/routes/speech.py:212-244 | Decoding what was encoded gives back the original bytes. |
| `Base64.EncodeAlphabet` | backend/api/routes/speech.py:244 | An encoding uses only the 64-character alphabet and `=`. |
| `Base64.StandardVectors` | backend/api/routes/speech.py:244 | "f", "fo" and "foo" encode as "Zg==", "Zm8=" and "Zm9v", the examples of section 10 of RFC 4648. |
| `Base64.FoobarVector` | backend/api/routes/speech.py:244 | "foobar" encodes as "Zm9vYmFy": groups of three bytes are encoded in order. |
| `Base64.HighValueVector` | backend/api/routes/speech.py:244 | Values 62 and 63 are written `+` and `/`, as in the standard alphabet. |
| `Market.RecommendationsByTrend` | backend/api/routes/market.py:116-139 | Advice is always three strings. Two rows get the same advice exactly when their trends fall in the same class, and any trend other than increasing or decreasing gets the stable advice. Table crops never get the unknown-crop advice. |
| `Market.GetCurrentPrice` | backend/api/routes/market.py:78-114 | The report keeps the caller's spelling of the crop and today's date, and has three pieces of advice. |
| `Market.KnownCropReport` | backend/api/routes/market.py:80-93 | A table crop is found whatever its ASCII case. Its figures are the table's, unchanged, and its advice matches its trend. Location, date and random draws do not affect the figures. |
| `Market.UnknownCropReport` | backend/api/routes/market.py:94-114 | A crop outside the table is priced per kg at "<location> Local Market", with one of the three trends and the generic advice. |
| `Market.DecisionRuleCases` | backend/api/routes/market.py:247-259 | The decision is hold exactly for an increasing trend above 5%. Three cases sell with the stable-prices reason: a decreasing trend at or above -3%, an increasing trend at or below 5%, or any other trend. |
| `Market.AnalyzeSellingDecision` | backend/api/routes/market.py:238-268 | Confidence is always 0.7 and there is exactly one reason. The decision and reason follow the rule on the current price's trend, and the price and advice are the current price's. |
| `Market.TableDecisions` | backend/api/routes/market.py:40-76 | On the table, tomato and sugarcane are held. Potato is sold as falling, and onion and rice are sold as stable. |
| `Market.GetMarketTrends` | backend/api/routes/market.py:141-183 | A report is returned exactly when `days` is positive, the oldest date is not before 0001-01-01 and the third forecast date is not past 9999-12-31. A date past either end fails with Python's date-overflow message and zero days with division by zero. A report has one price per past day, oldest first, around the base price (25.0 for an unknown crop). Then come three forecast days, tomorrow first, and the average of the history followed by the three remarks. |
| `Market.TrendDates` | backend/api/routes/market.py:150-170 | The history runs day by day from `days` ago to yesterday, and every past date precedes every forecast date. On a report every date lies within the range `datetime` can hold. |
| `Market.SumBounds` | backend/api/routes/market.py:178 | A sum of prices that each lie within bounds lies within the count times those bounds. |
| `Market.AverageNearBase` | backend/api/routes/market.py:148-178 | With the history perturbations within [-3, 3], as they are drawn, the reported average lies within 3 of the base price. |
| `Market.ForecastNearBase` | backend/api/routes/market.py:161-170 | With forecast perturbations within [-2, 4] and confidences within [0.7, 0.95], as they are drawn, every predicted price lies between 2 below and 4 above the base price, and every confidence lies in that range. |
| `Market.GetPopularCrops` | backend/api/routes/market.py:216-232 | One summary per popular crop, in the fixed order of the list. |
| `Market.SummarizeCrops` | backend/api/routes/market.py:223-230 | The loop gives one summary per crop of the list it is given, in list order, each the title-cased name with the current price, unit and trend of that crop. |
| `Market.PopularCropsFromTable` | backend/api/routes/market.py:220-230 | The popular crops are exactly the table's crops. Each summary carries the table's price, unit and trend whatever the random source draws, under a title-cased name. |

## Left out

- Case mapping and `\d` are ASCII only.
  - `lower()`, `title()` and the regular expressions' `IGNORECASE` work on ASCII letters; Python maps every Unicode letter.
  - `\d` is the ASCII digits; Python also accepts other Unicode decimal digits.
  - Whitespace (`strip()`, `split()`, `\s`) follows Python's full `str.isspace` set.
- `Speech.ConvertSpeechToText`: decoding is strict, a weaker model of the source.
  - Python's `b64decode` without `validate` drops characters outside the alphabet, which the model rejects.
  - The detail text of a decoding failure is not Python's exact message.
- Floating point is modelled as exact rationals.
  - The market service's `round(…, 2)` and `round(…, 1)` are not modelled, and neither is float formatting of the average inside the first market insight. The insight carries the number instead of the text.
  - `float(digits) / 100` is exact.
- The clock and the random source are parameters: `Market.Environment`, the `today` date ordinal of `Market.GetMarketTrends`, and `Market.TrendNoise`.
  - `Market.GetCurrentPrice`: the ranges of the random draws (price in [15, 50], percentage in [-10, 15]) are not constrained, which is weaker than the source.
  - The history noise range [-3, 3] appears only as a precondition of `Market.AverageNearBase`. The forecast noise range [-2, 4] and the confidence range [0.7, 0.95] appear only as preconditions of `Market.ForecastNearBase`.
  - Dates are day offsets from today, not formatted text.
- `Market.GetMarketTrends`: when `days` exceeds 999999999, `timedelta` raises its own overflow message, which names the value. The model reports this case with the date-overflow message.
- `analyze_selling_decision` also fetches the market trends and never uses them. With the default 7 days that call fails only for a clock within a week of either end of the calendar, so it is left out.
- All calls into the Azure Speech SDK and the language model are function parameters.
  - This includes the recognizer, the synthesizer and `ainvoke`.
  - The audio stream objects, logging and the `speech_key`/`speech_region` settings are left out.
- Concurrency and `async` are left out.
- Out of scope:
  - `analyze_crop_image`: image resizing and re-encoding (PIL) and the multimodal prompt.
  - `get_scheme_categories`.
  - FastAPI request validation and response models.
  - The `state` parameter, which `search_schemes` ignores.
- The fixed system prompt of the chat service is a parameter. The prompt text is not reproduced.
- Some `except` handlers are not modelled.
  - The handler of `_parse_image_analysis` only catches failures that cannot happen on a string.
  - The endpoint handlers that turn service failures into 500 are modelled for the speech endpoints only. In the market and scheme endpoints the services fail only in `get_market_trends`, for a `days` that is not positive or a date past either end of the calendar. `Market.GetMarketTrends` reports these as errors, but the route's 500 wrapping is not modelled.
- History items are given a role and a content. A history item without a `role` key (a `KeyError` in the source) is not modelled.
- A JSON `Confidence` value that is not a number is not modelled. The model's `NBestEntry` holds an optional number.
