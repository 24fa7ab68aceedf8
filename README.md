# Groq suggestion pipeline, modelled in Dafny

The `/suggest` handler in `app.py` asks the Groq chat-completion service for a
JSON array of property names within a rent budget. The service's output is
unreliable free text. The handler turns it into a list of strings in four
steps, and this project models and proves each of them:

- **`clean_text`** (module `Sanitizer`) deletes `<think>…</think>` reasoning
  spans, then every one-line `<…>` tag, then strips whitespace. The two
  `re.sub` calls are written as the left-to-right scans Python's regular
  expression engine performs. The whitespace set is the one Python's
  `str.strip()` uses (module `Text`). Case-insensitive matching follows
  Python's `re.IGNORECASE` on `str` patterns.
- **`parse_json_array`** (module `Validator`) accepts a decoded value only
  when it is a list of strings. It returns the elements stripped, in order,
  with blank ones dropped. `json.loads` is a function parameter
  `loads: string -> Option<JsonValue>`; `None` stands for a decoding error
  (module `Json`).
- **The response tail of `call_groq`** (module `Envelope`) reads
  `choices[0].message.content` and strips it. A missing `choices`, an empty
  `choices`, a missing `message` and a missing `content` each give `""`. When
  a lookup raises because some part has the wrong type, the model returns
  that fault with the expression that raised and the Python type it met
  (`int` and `float` told apart by the number's literal, as `json.loads`
  does). For example, a JSON `null` content makes `None.strip()` raise.
- **`suggest`** (module `Suggestion`) is an imperative method over a
  `GroqClient` stub object. The stub answers its n-th call from a script and
  records a call counter and the payload of each call. The method checks the
  key, makes the first attempt (call, clean, parse) and retries once when that
  gives `None` or `[]`. It then replies with the list or the fixed
  placeholder. A call that raises gives a single `"Error: …"` line. The
  method's contract ties its reply and the client's new state to the pure
  function `Plan`. The lemmas about `Plan` state the call count, when the
  retry happens, and reply verbatim-ness and well-formedness.

Behaviour of `app.py` that a reader might expect to be otherwise:

- A failed call or non-200 status raises. The reply is then `"Error: " + str(e)`,
  not the placeholder, and no retry follows (app.py:93-95, 159-162).
- A missing key gives the one-element list
  `["Groq API key not found. Check Render environment."]`, in the same shape as
  a success (app.py:79-80).
- `parse_json_array` returns `[]` for a list of blank strings. The caller
  treats `[]` like `None` (app.py:22, 135, 154).
- No bound of 1 to 5 suggestions is enforced anywhere. The reasoning tag is
  literally `<think>`.

## Model

| member | source | states |
|---|---|---|
| `Text.IsSpace` | app.py:15 | the characters `str.strip()` removes: those for which `str.isspace()` holds |
| `Text.FoldsTo` | app.py:13 | a text character matches a pattern character under `re.IGNORECASE`: the ASCII case pair, and U+0130, U+0131 and U+212A for `i` and `k` |
| `Text.MatchesAt` | app.py:13 | a literal pattern matches case-insensitively at a position, all of it inside the text |
| `Text.TrimStart` | app.py:15 | the left half of `strip()` keeps a suffix of its input that is empty or starts with a non-space |
| `Text.TrimStartCut` | app.py:15 | what the left half of `strip()` cuts off is all whitespace |
| `Text.TrimEnd` | app.py:15 | the right half of `strip()` keeps a prefix of its input that is empty or ends with a non-space |
| `Text.TrimEndCut` | app.py:15 | what the right half of `strip()` cuts off is all whitespace |
| `Text.TrimStartSpaces` | app.py:15 | a whitespace prefix in front of text starting with a non-space is removed exactly |
| `Text.TrimEndSpaces` | app.py:15 | a whitespace suffix after text ending with a non-space is removed exactly |
| `Text.StripAround` | app.py:15 | whitespace padding around non-empty stripped text is removed and the text itself kept |
| `Text.Strip` | app.py:15 | result has no whitespace at either end and is no longer than the input |
| `Text.StripSlice` | app.py:15 | `strip()` keeps a contiguous slice of its input; everything cut on either side is whitespace |
| `Text.StripEmpty` | app.py:22 | `strip()` gives `""` exactly when the input is all whitespace (what `if x.strip()` tests) |
| `Text.StrippedFixpoint` | app.py:15 | stripping already-stripped text changes nothing |
| `Sanitizer.FindThinkClose` | app.py:13 | finds the nearest case-insensitive `</think>` at or after a position: it matches there, none matches earlier, and `None` means none exists |
| `Sanitizer.ThinkSpanEnd` | app.py:13 | a span can only start at a `<` and always covers at least both delimiters |
| `Sanitizer.RemoveThink` | app.py:13 | the reasoning-span scan never lengthens the text |
| `Sanitizer.TagEnd` | app.py:14 | finds the first `>` from a position: no `>` and no newline lies before it; `None` exactly when the rest of the line has no `>` |
| `Sanitizer.TagEndFinds` | app.py:14 | when a `>` is preceded on its line by no other `>`, the scan stops exactly there |
| `Sanitizer.RemoveTagsDrops` | app.py:14 | a tag at the start is deleted through its first `>` (the lazy `.*?`) and the scan resumes right after it |
| `Sanitizer.TagTailUnchanged` | app.py:14 | `"b>"` passes the tag scan unchanged |
| `Sanitizer.LazyTagExample` | app.py:14 | `"<a>b>"` becomes `"b>"`, not `""` |
| `Sanitizer.RemoveTags` | app.py:14 | the one-line-tag scan never lengthens the text |
| `Sanitizer.CleanText` | app.py:9-15 | empty input gives `""`; the output is stripped, has no one-line tag (both the recursive and the plain reading), and is no longer than the input |
| `Sanitizer.MatchesAtSlice` | app.py:13 | whether a tag matches at a position depends only on the characters it covers |
| `Sanitizer.ThinkCloseOneOpener` | app.py:13 | only the first character of `</think>` is `<`, so two closing tags cannot overlap |
| `Sanitizer.NoCloseInside` | app.py:13 | no closing tag starts inside a span body that holds none, even one overlapping the real closing tag |
| `Sanitizer.ThinkSpanAtStart` | app.py:13 | a span opening at the start of the text ends right after its first closing tag |
| `Sanitizer.RemoveThinkKeeps` | app.py:13 | where no opener starts, the character is kept and the scan moves on one character |
| `Sanitizer.RemoveThinkCons` | app.py:13 | the same step on a concatenation: the head of the first part is kept and the scan goes on with the rest |
| `Sanitizer.RemoveThinkDrops` | app.py:13 | a span at the start of the text is dropped and the scan resumes right after its closing tag |
| `Sanitizer.ThinkOpenOneOpener` | app.py:13 | only the first character of `<think>` is `<` |
| `Sanitizer.OpenerStaysInside` | app.py:13 | when the next text starts with `<`, an opener starting in the text before it lies wholly inside that text |
| `Sanitizer.MatchesAtTail` | app.py:13 | a match at position `p` of the tail is a match at `p + 1` of the whole |
| `Sanitizer.NoOpenerTail` | app.py:13 | having no opener in the first positions carries over from a text to its tail |
| `Sanitizer.RemoveThinkPrefix` | app.py:13 | text in whose positions no opener starts passes the reasoning scan unchanged, whatever follows it |
| `Sanitizer.ThinkSpanRemoved` | app.py:13 | when the text before it holds no case-insensitive `<think>` and its body holds no closing tag, a `<think>…</think>` span is deleted whole, delimiters included, in any letter case and across newlines; the text before it (other tags included) is kept and the scan resumes after the span |
| `Sanitizer.TailUnchanged` | app.py:13 | any text shorter than both delimiters together passes the reasoning scan unchanged |
| `Sanitizer.SampleTagsMatch` | app.py:13 | `<ThInK>` and `</think>` match the delimiters case-insensitively |
| `Sanitizer.SampleSpanRemoved` | app.py:13 | `"A" + open + "x\ny" + close + "C"` becomes `"AC"` for any casing of the two tags |
| `Sanitizer.ThinkSpanExample` | app.py:13 | `"A<ThInK>x\ny</think>C"` becomes `"AC"` after the reasoning scan |
| `Sanitizer.CleanTextExample` | app.py:9-15 | `clean_text("A<ThInK>x\ny</think>C") == "AC"` |
| `Sanitizer.RemoveTagsLineClear` | app.py:14 | text with no `>` before its first newline still has none after the tag scan |
| `Sanitizer.RemoveTagsNoTags` | app.py:14 | after the tag scan no `<` is followed on its line by a `>` |
| `Sanitizer.NoTagsFixpoint` | app.py:14 | tag-free text passes the tag scan unchanged |
| `Sanitizer.ThinkOpenIsTag` | app.py:13-14 | a `<think>` opener is itself a one-line tag |
| `Sanitizer.LineBlocked` | app.py:14 | a `>` reached before any newline means the line is not clear |
| `Sanitizer.NoTagsNoThink` | app.py:13-14 | tag-free text passes the reasoning scan unchanged |
| `Sanitizer.LineClearPrefix` | app.py:14 | a prefix of a line with no `>` has no `>` either |
| `Sanitizer.NoTagsSlice` | app.py:14-15 | every slice of tag-free text is tag-free |
| `Sanitizer.NoTagsStrip` | app.py:14-15 | stripping tag-free text leaves it tag-free |
| `Sanitizer.LineClearMeaning` | app.py:14 | the recursive "no `>` before the newline" equals "every `>` has a newline before it" |
| `Sanitizer.NoTagsMeaning` | app.py:14 | the recursive tag-freedom equals: no `<` followed by newline-free characters and then `>` |
| `Sanitizer.CleanTextIdempotent` | app.py:9-15 | `clean_text(clean_text(s)) == clean_text(s)` |
| `Json.KindOf` | app.py:21 | the Python type of a decoded value; `str`, `list` and `dict` exactly for strings, arrays and objects, `int` or `float` exactly for numbers |
| `Json.NumberKinds` | app.py:20 | `5` decodes to an `int`, `5.0` and `5e0` to a `float` |
| `Validator.AllStrings` | app.py:21 | `all(isinstance(x, str) for x in parsed)` |
| `Validator.StringsOf` | app.py:21-22 | the strings of an all-string list, element for element |
| `Validator.KeepNonBlank` | app.py:22 | the comprehension keeps at most as many elements as it gets |
| `Validator.KeepNonBlankSuggestions` | app.py:22 | every element the comprehension keeps is non-blank and already stripped |
| `Validator.ParseJsonArray` | app.py:17-25 | `None` exactly when decoding fails, the value is not a list, or some element is not a string; otherwise no longer than the list, every element non-blank and stripped |
| `Validator.KeepNonBlankAppend` | app.py:22 | the comprehension distributes over concatenation, so the kept elements keep their order |
| `Validator.KeepNonBlankSingle` | app.py:22 | one element is kept stripped, or dropped when blank |
| `Validator.KeepNonBlankFixpoint` | app.py:22 | a list of non-blank stripped strings is kept whole (the filter is idempotent) |
| `Validator.RejectsUndecodable` | app.py:19-25 | text that does not decode gives `None` |
| `Validator.RejectsMixedList` | app.py:21 | `["a", 2, "b"]` gives `None` |
| `Validator.SampleStrip` | app.py:22 | `"  X  ".strip() == "X"` |
| `Validator.StripsElements` | app.py:22 | `["  X  "]` gives `["X"]` |
| `Validator.BlankListIsEmpty` | app.py:22 | `["", "  "]` gives `[]`, not `None` |
| `Envelope.HasChoices` | app.py:100 | `"choices" in j` is defined only on objects, lists and strings; anything else raises |
| `Envelope.PyLen` | app.py:100 | `len()` is defined only on objects, lists and strings |
| `Envelope.ContentOf` | app.py:101-102 | the `.get(...).get(...).strip()` chain returns stripped text or the fault it raises |
| `Envelope.Extract` | app.py:97-103 | result, when text, is stripped; no `choices` or empty `choices` gives `""`; a non-empty `choices` list reads its first element |
| `Envelope.ContainsText` | app.py:100 | `"choices" in j` on a string: a substring test |
| `Envelope.Get` | app.py:101 | `dict.get(key, default)` |
| `Envelope.ExtractsContent` | app.py:100-102 | a body whose `choices` list starts with a message with string content yields that content stripped, whatever other keys the body, the choice and the message carry |
| `Envelope.NumberBodyRaises` | app.py:100 | a number body raises at the `in` test, with `int` for `5` and `float` for `5.0` |
| `Envelope.MissingPartsAreEmpty` | app.py:101 | a first choice without `message`, or a message without `content`, yields `""` |
| `Envelope.NullContentRaises` | app.py:101-102 | a `null` content raises on `.strip()` instead of yielding `""` |
| `Suggestion.GroqClient.constructor` | app.py:82-92 | a fresh stub has made no calls |
| `Suggestion.GroqClient.Post` | app.py:84-95 | one request answers from the script, adds one to the counter and logs its payload |
| `Suggestion.Fetch` | app.py:82-103 | a raised request becomes a service fault with its message; returned text is stripped |
| `Suggestion.CallGroq` | app.py:82-103 | one call through the client yields `Fetch` of the scripted response and records exactly one call |
| `Suggestion.AttemptResult` | app.py:130-132 | an attempt's parsed list holds only non-blank stripped strings; a raised call is a fault |
| `Suggestion.Usable` | app.py:135 | the truth value of `parsed`: neither `None` nor `[]` |
| `Suggestion.HasKey` | app.py:79 | the truth value of `GROQ_KEY`: set and not empty |
| `Suggestion.FaultText` | app.py:159-162 | `str(e)`: the service message, or the built-in exception text for the failing lookup and the type it met |
| `Suggestion.Plan` | app.py:79-157 | at most two calls, always the first payload before the retry one; a call happens iff the key is set; a suggested list is non-empty and well formed |
| `Suggestion.Reply` | app.py:154-162 | a suggested list is replied verbatim; every other verdict is one line; a fault becomes `"Error: " + str(e)`; the fallback is the placeholder |
| `Suggestion.Suggest` | app.py:73-162 | reply and new client state are exactly those `Plan` gives for the two scripted responses; at most two calls; no key means no call and the key message; the reply is never empty |
| `Suggestion.NoKeyNoCalls` | app.py:79-80 | without a key: zero calls and the single key-not-found message |
| `Suggestion.RetryExactlyWhenUnusable` | app.py:134-152 | the second call happens iff the first attempt did not raise and parsed to `None` or `[]` |
| `Suggestion.FirstListVerbatim` | app.py:154-155 | a usable first list is returned verbatim after exactly one call |
| `Suggestion.RaisedCallStops` | app.py:93-95 | a raising first call gives `["Error: " + message]` with no retry |
| `Suggestion.RaisedRetryStops` | app.py:150 | a raising retry gives that error after exactly two calls |
| `Suggestion.RetryRescues` | app.py:135-155 | an unusable first attempt and a usable retry give the retry's list after two calls |
| `Suggestion.FallbackExactlyWhenBothUnusable` | app.py:154-157 | the placeholder comes exactly when both attempts return text that parses to `None` or `[]` |
| `Suggestion.ReplyWellFormed` | app.py:154-162 | every path replies with a non-empty list; a suggested one holds only non-blank stripped strings |
| `Suggestion.GarbageIsClean` | app.py:9-15 | `clean_text("garbage") == "garbage"` |
| `Suggestion.NoTagsWithoutOpeners` | app.py:14 | text without `<` is tag-free |
| `Suggestion.FetchContent` | app.py:100-102 | a response with content `t` yields `strip(t)` |
| `Suggestion.UndecodableTwiceFallsBack` | app.py:129-157 | content that never decodes gives two calls and the placeholder |
| `Suggestion.GarbageSurvives` | app.py:9-15 | `"garbage"` survives fetching and cleaning unchanged |
| `Suggestion.GarbageTwiceFallsBack` | app.py:129-157 | a service answering `"garbage"` twice gets two calls and the placeholder |

## Left out

- The `if not text` guard of `clean_text` (app.py:11-12) also covers `None`, which a `string` parameter cannot express. The pipeline never passes `None`, because `call_groq` returns a `str` or raises; the empty-string half is modelled.
- ThinkSpanRemoved: stated only when no `<think>` opener lies before the span; with one, that earlier opener starts the span (as Python does), and the model states no lemma for that case beyond the scan itself.
- Flask routing, template rendering, `request.json` and `jsonify` (app.py:1, 43-54). The reply is modelled as the `"suggestion"` list itself.
- The `/predict` route (app.py:44, 56-69): a pickled regression model, `np.exp` and floats.
- The budget: `float(data.get("price", 0) or 0)` and the `₹{price:,.2f}` prompt formatting (app.py:77, 107) need floats. The `ValueError` a non-numeric price raises, before the key check, is not modelled.
- The prompt texts, `max_tokens` and `temperature` (app.py:106-148) are constant data. A call's payload is modelled only as `FirstAttempt` or `RetryAttempt`.
- `requests.post`, its headers, timeout and status check (app.py:84-95). The stub answers each call with a decoded 200 body or a raised exception carrying its `str(e)`. That exception also stands for a transport error and for `resp.json()` failing to decode.
- `time.sleep(0.5)` (app.py:149) is a delay with no logical content.
- Environment loading and the debug prints and traceback (app.py:29-41, 94, 98, 160-161). The key is a parameter `Option<string>`, with `None` for an unset variable.
- `json.loads` is abstract (a function parameter). JSON numbers keep only their literal text.
- The wording of Python's built-in exception messages (`TypeError`, `AttributeError`, `KeyError`) varies with the Python version. It is the parameter `describe`, so the `"Error: …"` line for a malformed body is modelled up to that text.
- Characters are Unicode scalar values. Strings holding lone surrogates, which Python allows, are not modelled. Case folding covers only the letters of `think`.
