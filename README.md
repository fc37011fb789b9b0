# LLM Comparator core, modelled in Dafny

The LLM Comparator asks one question of several LLM providers. It collects
their answers and then has an OpenAI model judge them anonymously: the
answers are shown only as "Competitor 1..N", and the judge's JSON ranking
is mapped back to provider names. This project models the core of that
program and proves its properties:

- `Questions`, `Responses` — the frozen `Question` and `Response` records.
  Covers construction-time validation (with the Python `strip()` and
  truthiness semantics), `create` and `short_preview`.
- `ProviderBase` — the `LLMProvider` base record: the name/model checks in
  `__post_init__`, and `__repr__`. Python's `repr(str)` is modelled far
  enough to prove that it reads back.
- `ClientHelper` — `OpenAIClientHelper`. The constructor and the argument
  checks of `ask` can raise. Every backend failure (timeout, SDK exception,
  missing choices or content) becomes `None`. Otherwise `ask` returns the
  first choice's stripped text, or the raw completion.
- `AnthropicProvider` — the Anthropic implementation: constructor keyword
  arguments, the request it sends, the text-block collection loop and every
  error path of `generate_answer`.
- `Env`, `Collector`, `Judge` — the three functions of `src/main.py`:
  - `get_env_var`;
  - `gather_provider_responses`: an ordered dict built in a loop, where a
    failing provider stores `None`;
  - `judge_responses_with_openai`: filtering, numbering, prompt, helper
    call, JSON parsing and re-mapping of the ranking.
- Support modules:
  - `Text`: `str.strip` over Python's whitespace set, `join`, slicing.
  - `Numerals`: `str(int)` and the decimal `int(str)`.
  - `OrderedMaps`: a `dict` as an insertion-ordered entry list.
  - `JsonValues`: decoded JSON.
  - `Wrappers`, `Errors`.

Remote calls are not performed. Their outcome (returned value, timeout,
exception) is an input of the operation that makes them, and the request
the operation would send is an output. `json.loads` is a function
parameter. Console output of the judge and of the collector is a sequence
of events.

## Model

| member | source | states |
|---|---|---|
| Text.LeadingSpaces | src/models/question.py:28 | the count of leading characters `strip()` removes: all of them are Python whitespace and the next one is not |
| Text.TrailingSpaces | src/models/question.py:28 | the same for the trailing end |
| Text.Strip | src/models/question.py:28 | `strip()` is empty exactly when the text is blank (the `if not x.strip()` test), and its result has no whitespace at either end |
| Text.StripIsMiddle | src/models/question.py:28 | what `strip()` keeps is a contiguous middle of the text with only whitespace before and after it |
| Text.StripEnds | src/models/question.py:28 | cutting maximal whitespace runs from both ends leaves non-whitespace ends, and nothing exactly when the text is blank |
| Text.StripAt | src/models/question.py:28 | uniqueness: any slice with whitespace around it and none at its ends is the result of `strip()` |
| Text.StripAround | src/models/question.py:28 | a middle of `s` is also what `strip()` keeps of `s` padded with whitespace |
| Text.StripPadded | src/models/question.py:28 | whitespace added around a string does not change `strip()` |
| Text.StripUnchanged | src/providers/openai_client_helper.py:86 | a string without whitespace at its ends is its own `strip()` |
| Text.StripIdempotent | src/providers/openai_client_helper.py:86 | `strip()` is idempotent, so the helper's text reply is already stripped |
| Text.Join | src/main.py:107 | `sep.join(parts)` is empty for no parts, and otherwise starts with the first part and ends with the last |
| Text.SlicePrefix | src/models/question.py:39 | `s[:n]` is a prefix of `s`, of length `min(n, len)` for `n >= 0` and `len + n` (at least 0) for negative `n` |
| Text.Preview | src/models/question.py:39 | the text itself when it fits in `length`, else `s[:length] + "..."` |
| Numerals.DigitChar | src/main.py:105 | a digit below ten renders as a decimal digit character |
| Numerals.DecimalString | src/main.py:105 | `str(n)` is non-empty decimal digits without a leading zero whose value is `n` |
| Numerals.IntString | src/main.py:150 | `str(i)` has no whitespace at its ends and starts with `-` exactly when `i < 0` |
| Numerals.ParseDigits | src/main.py:150 | a digit string parses exactly when it is non-empty and all decimal digits |
| Numerals.HasSeparatorIff | src/main.py:150 | the recursive scan for U+001C..U+001F finds one exactly when the string has one |
| Numerals.ParseInt | src/main.py:150 | `int(s)` fails on a blank string and on any string holding U+001C..U+001F, which `strip()` would remove but `int()` does not skip |
| Numerals.ParseIntString | src/main.py:150 | round trip: `int(str(i)) == i` for every integer |
| Numerals.ParseIntPadded | src/main.py:150 | `int()` ignores the whitespace it skips (Python whitespace other than U+001C..U+001F) around the number |
| Numerals.SeparatorPadded | src/main.py:150 | padding with that whitespace is blank and adds no separator |
| Numerals.SameStripSameParse | src/main.py:150 | two strings with the same `strip()` and the same separator presence parse alike |
| Numerals.SeparatorRejected | src/main.py:150 | U+001C before a digit is removed by `strip()`, yet `int()` of it fails |
| OrderedMaps.Keys | src/main.py:52-63 | the key list has one key per entry, in entry order |
| OrderedMaps.Get | src/main.py:154 | `d.get(k)` is present exactly when `k` is a key, and then it is a stored value of `k` |
| OrderedMaps.Put | src/main.py:56 | `d[k] = v` on the entry list: its properties are `PutGet`, `PutKeys`, `PutDistinct` and `PutNew` |
| OrderedMaps.PutGet | src/main.py:56 | after `d[k] = v`, `d.get(k)` is `v` and every other key reads as before |
| OrderedMaps.PutKeys | src/main.py:56 | `d[k] = v` keeps the key order and appends `k` only when it is new |
| OrderedMaps.PutDistinct | src/main.py:56 | `d[k] = v` keeps every key unique |
| OrderedMaps.PutNew | src/main.py:56 | assigning a new key appends its entry at the end |
| Questions.NewQuestion | src/models/question.py:26-29 | construction succeeds exactly when the text is not blank; otherwise it raises `ValueError("Question text cannot be empty")`; fields are stored as given |
| Questions.Create | src/models/question.py:31-33 | `Question.create(text)` is the constructor with a fresh id and the current time |
| Questions.ShortPreview | src/models/question.py:35-39 | with `length` 80 by default: the text when it fits, else its first `length` characters and `...` (Python slice semantics for negative lengths) |
| Responses.NewResponse | src/models/response.py:23-30 | succeeds exactly when the provider and answer are not blank and a question is given; the provider is checked first, then the answer, then the question, each raising its own `ValueError` |
| Responses.Create | src/models/response.py:32-34 | `Response.create` is the validating constructor |
| Responses.ShortPreview | src/models/response.py:36-40 | with `length` 80 by default: the answer when it fits, else its first `length` characters and `...` |
| ProviderBase.NewProvider | src/providers/base.py:28-32 | succeeds exactly when the name and model are not blank; the name is checked before the model |
| ProviderBase.EscapeChar | src/providers/base.py:39 | each escape `repr` writes is one plain character or a backslash pair that unescapes to the character |
| ProviderBase.StrRepr | src/providers/base.py:39 | `repr(s)` is wrapped in the quote character Python chooses |
| ProviderBase.EscapeRoundTrip | src/providers/base.py:39 | unescaping the escaped body gives the string back |
| ProviderBase.StrReprRoundTrip | src/providers/base.py:39 | `repr(s)` read back as a literal is `s` |
| ProviderBase.PlainEscapesToItself | src/providers/base.py:39 | a string without quotes, backslashes or control escapes is written unchanged |
| ProviderBase.PlainQuote | src/providers/base.py:39 | such a string is written in single quotes |
| ProviderBase.PlainRepr | src/providers/base.py:39 | such a string's `repr` is `'` + the string + `'` |
| ProviderBase.Repr | src/providers/base.py:38-39 | `__repr__` is `ClassName(name=`, then `repr(name)`, then `, model=`, then `repr(model)`, then `)`, each piece at its stated offset |
| ProviderBase.ReprReadsBack | src/providers/base.py:38-39 | both literals in the `repr` read back as the provider's name and model |
| ProviderBase.ReprLayout | src/providers/base.py:39 | where the two literals sit in the `repr` text |
| ProviderBase.QuotedAt | src/providers/base.py:39 | the body of a single-quoted literal sits one character after its opening quote |
| ProviderBase.ReprShowsName | src/providers/base.py:38-39 | a plain name appears verbatim in the `repr`, right after `(name='` |
| ClientHelper.NewHelper | src/providers/openai_client_helper.py:15-24 | construction succeeds exactly when `api_key` is a non-blank string, else it raises the helper's `ValueError` |
| ClientHelper.Extract | src/providers/openai_client_helper.py:59-86 | a timeout or SDK exception gives `None`; raw mode returns the completion; otherwise the result is the first choice's stripped text exactly when that choice has a message with non-empty content, and `None` else |
| ClientHelper.Ask | src/providers/openai_client_helper.py:26-86 | the model is checked before the messages and either failure raises before any call; the request carries the stripped model and the messages and options unchanged; once sent, the result is what `Extract` makes of the outcome |
| ClientHelper.AskAbsorbsBackendFailures | src/providers/openai_client_helper.py:59-72 | with valid arguments `ask` never raises, a timeout or exception yields `None`, and the model sent has no leading whitespace |
| AnthropicProvider.ClientOptions | src/providers/anthropic_impl.py:45-47 | the client keywords hold `api_key` always and `base_url` exactly when one is given |
| AnthropicProvider.New | src/providers/anthropic_impl.py:32-50 | the base validation runs first with its own errors; on success the base fields are stored and the client keywords are `api_key`, plus `base_url` exactly when one is given, with their values and nothing else |
| AnthropicProvider.BlockText | src/providers/anthropic_impl.py:103-105 | a block's text is its `text` or its `content` string; a truthy non-string `text` gives nothing |
| AnthropicProvider.BlockTexts | src/providers/anthropic_impl.py:101-105 | at most one part per block |
| AnthropicProvider.BlockTextCases | src/providers/anthropic_impl.py:103-105 | a block contributes its `text` when that is a non-empty string, else its `content` when the `text` is falsy and the `content` is a string, and nothing otherwise |
| AnthropicProvider.NoPartsIffNoTextBlock | src/providers/anthropic_impl.py:101-107 | no parts are collected exactly when no block contributes |
| AnthropicProvider.CollectParts | src/providers/anthropic_impl.py:101-105 | the loop collects every contributing block's text in block order |
| AnthropicProvider.RequestFor | src/providers/anthropic_impl.py:68-81 | one user message carrying the question text, `max_tokens` 512, the provider's model and the forwarded options |
| AnthropicProvider.GenerateAnswer | src/providers/anthropic_impl.py:52-111 | timeouts and SDK errors propagate. A `None` reply, empty content and no text block each raise their `RuntimeError`. Otherwise the answer is the joined, stripped parts (or `str(reply)` in raw mode), and a success is a `Response` for this provider and question with a non-blank answer |
| Env.GetEnvVar | src/main.py:39-43 | the value is returned exactly when the variable is set and non-empty; otherwise it raises `ValueError` naming the variable |
| Collector.Collect | src/main.py:52-63 | the dictionary after each provider in turn has assigned its outcome to its name; its properties are `CollectKeys`, `CollectLastWins`, `CollectUnknownName` and `CollectDistinctNames` |
| Collector.Gather | src/main.py:46-64 | the loop's dictionary is `Collect` of the outcomes, and provider `i`'s trace line reports its answer or its error |
| Collector.HasNameLast | src/main.py:53 | a name is carried by some provider exactly when the last provider or an earlier one carries it |
| Collector.CollectKeys | src/main.py:52-63 | the collected keys are unique and are exactly the provider names |
| Collector.CollectLastWins | src/main.py:52-63 | a name maps to the outcome of the last provider with that name: its `Response`, or `None` when it raised |
| Collector.CollectUnknownName | src/main.py:52-64 | a name no provider carries has no entry |
| Collector.CollectDistinctNames | src/main.py:52-64 | with distinct names, entry `i` is provider `i`'s name with its outcome, in registry order |
| Judge.SkippedNames | src/main.py:83 | the names mapped to `None`, in dictionary order; see `SkippedMember`, `FilterSplit` and `FilterCount` |
| Judge.Competitors | src/main.py:89-93 | the names with their responses, in dictionary order; see `CompetitorMember`, `FilterSplit`, `FilterCount` and `CompetitorNamesDistinct` |
| Judge.SkippedEvents | src/main.py:84-87 | one skipped line per failed provider, in order |
| Judge.FilterSplit | src/main.py:83-93 | both filters keep dictionary order |
| Judge.SkippedMember | src/main.py:83 | a name is reported as skipped exactly when it maps to `None` |
| Judge.CompetitorMember | src/main.py:89-93 | a pair is a competitor exactly when the name maps to that response |
| Judge.FilterCount | src/main.py:83-93 | every entry is either skipped or a competitor |
| Judge.CompetitorNamesDistinct | src/main.py:89-93 | competitors drawn from a dictionary have distinct names |
| Judge.Answers | src/main.py:102-106 | the answers, in competitor order |
| Judge.Part | src/main.py:105 | one answer with its `Competitor {idx}:` label; its layout is `PartLayout` |
| Judge.PartLayout | src/main.py:105 | a part is `Competitor `, the decimal number, `:` and a newline, then the answer and a newline: no provider name appears |
| Judge.AnonParts | src/main.py:101-106 | part `i` is answer `i` labelled with the number `i + 1` |
| Judge.Numbering | src/main.py:100-103 | number `i` assigned to the `i`-th competitor's name; see `NumberingDomain` and `NumberingInjective` |
| Judge.NumberingDomain | src/main.py:100-103 | the numbering's domain is exactly 1..N, and number `k` names competitor `k` |
| Judge.NumberingInjective | src/main.py:100-103 | with distinct names, distinct numbers name distinct providers |
| Judge.Anonymize | src/main.py:100-106 | the loop builds exactly the numbering and the labelled parts |
| Judge.JudgePrompt | src/main.py:111-123 | the fixed instruction with the competitor count, the question and the anonymised answers in their places |
| Judge.PromptFor | src/main.py:107-123 | the prompt built from the question and the answers alone, with the parts joined by newlines and stripped; see `PromptIgnoresNames` |
| Judge.JudgeMessages | src/main.py:126-129 | a system message, then the prompt as the user message |
| Judge.PromptIgnoresNames | src/main.py:102-123 | anonymity: the prompt depends on the answers and not on the provider names |
| Judge.ResultsList | src/main.py:137-141 | a ranking exists exactly when the decoded reply is an object whose `results` is a list, and it is that list |
| Judge.ItemNumber | src/main.py:150 | `int(str(item))` of a decoded entry; see `ItemNumberCases` and `RankEventCases` |
| Judge.ItemNumberCases | src/main.py:150 | an integer entry reads as itself; an entry that is neither a string nor an integer never reads as a number |
| Judge.RankEvent | src/main.py:148-158 | each entry yields an invalid, unknown or ranked line at its rank; a ranked line names the numbered provider, which is non-empty |
| Judge.RankEventCases | src/main.py:149-158 | an entry is invalid exactly when `int(str(item))` fails; otherwise its line carries the parsed number and is ranked exactly when that number names a non-empty provider, else unknown |
| Judge.RankEvents | src/main.py:148-158 | one line per ranking entry |
| Judge.RankEventsAt | src/main.py:148 | entry `i` is read at rank `i + 1`, even when earlier entries were skipped |
| Judge.Rank | src/main.py:148-158 | the loop with `continue` produces exactly those lines |
| Judge.Verdict | src/main.py:133-158 | what the judge reports once its reply is back; see `VerdictLines` and `NoRankingWithoutResults` |
| Judge.VerdictLines | src/main.py:137-158 | a decoded `results` list gives one line per entry, entry `i` read at rank `i + 1` |
| Judge.NoRankingWithoutResults | src/main.py:133-145 | an empty reply, or a reply without a `results` list, yields a single non-ranking line |
| Judge.EchoedLabelRanksProvider | src/main.py:100-158 | round trip of anonymisation: when the judge names competitor `i` by its label, as a string or an integer, the line names the `i`-th competitor's provider |
| Judge.UnknownOutsideRange | src/main.py:154-156 | a number outside 1..N is reported as unknown |
| Judge.JudgeResponses | src/main.py:67-158 | the full protocol. Skipped names are reported first. Fewer than two competitors ends the judge. A blank api key or model raises before any call. Otherwise the request carries the anonymised prompt, and the lines are those of `Verdict` on the helper's reply |
| Judge.EchoedDigitRanks | src/main.py:150-158 | a label written as decimal digits resolves to its competitor |
| Judge.DigitStrings | src/main.py:105 | competitors 1, 2 and 3 are labelled "1", "2" and "3" |
| Judge.BasicRankingExample | tests/test_judge.py:39-55 | a judge that answers `["2", "1", "3"]` over openai, groq and gemini ranks groq, then openai, then gemini |

## Left out

- Network, SDK clients, `asyncio` and `wait_for`: each remote call is an outcome given as input. Timeout values and thread scheduling are not modelled.
- Console output wording: the judge's and the collector's `print` lines are events carrying their data. The "Judge ranking" header, "Asking OpenAI judge" and separator lines are not modelled. `provider.name.title()` is not modelled.
- Logging in the helper (`logger.exception`, `logger.warning`).
- `json.loads` is a parameter (`decode`), not a JSON parser. The judge's call `data.get("results")` on a non-object raises and is caught, so it is modelled as no ranking.
- `int(str(item))` is modelled for base-10 ASCII digits with an optional sign and the surrounding whitespace `int()` skips (Python whitespace except U+001C..U+001F, which make it fail). Underscores between digits, non-ASCII digits and the 4300-digit limit are not modelled. `str()` of a float, bool, `None`, list or dict is taken never to parse as an integer.
- `repr` of strings escapes only the quote, backslash, `\n`, `\r` and `\t`. Other non-printable characters are written as is.
- Object identity: `Question` and `Response` are compared as values.
- `uuid.uuid4()` and `datetime.now(UTC)` are the `freshId` and `now` parameters of `Questions.Create`.
- `main()` (src/main.py:161-229): the orchestration that builds the providers and prints the results is not part of this model.
- The OpenAI, Groq, Ollama and Gemini providers, the question generator and `LLMProviderProtocol` are not part of this model. The abstract `LLMProvider.generate_answer` has no behaviour to model.
- `OpenAIClientHelper.ask` with message contents that are not strings: messages are role/content string pairs.
- `OpenAIClientHelper.ask` when the first choice has no `message` attribute at all: the source reads it directly, outside the `try`, so an `AttributeError` escapes `ask`. The model covers a `message` that is present or `None`.
- Judge.JudgePrompt: no contract locates the question and the answers inside the prompt text; proving it over the long fixed wording is beyond the solver limits used here. Anonymity of the prompt is stated by `PromptIgnoresNames`.
- A failure of the Anthropic SDK client constructor in `__init__` is not modelled: construction succeeds once validation passes.
- Numerals.ParseInt: its contract only says which strings fail (blank ones, and ones holding U+001C..U+001F). What it accepts is stated by `ParseIntString` and `ParseIntPadded`.
