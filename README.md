# LLM Council backend core, modelled in Dafny

This project models five components of the LLM Council backend and proves
properties of them in Dafny 4.11:

- **Calculator tool** (`backend/tools.py`). The whitelist evaluator `_safe_eval_node` works over an already-parsed
  Python expression tree, on integers, bools, lists and tuples, with floats as opaque values. `safe_calculate` maps every
  outcome to a reply string, `str` of the result included.
  The same file's `get_available_tools` assembles the tool list, and `exa_search` formats its replies.
- **File parsing** (`backend/file_parser.py`):
  - image detection by the suffix after the last `.`;
  - MIME lookup;
  - the `data:` URL of an image, i.e. base64 per section 4 of RFC 4648 in a data URL per section 3 of RFC 2397;
  - the dispatch of `parse_file`;
  - text decoding with UTF-8 (section 4 of RFC 3629) and a Latin-1 fallback.
- **Runtime settings** (`backend/runtime_settings.py`): the bounded settings record with its defaults, construction from
  a JSON object, and the persisted settings file. The file is a field of the `SettingsStore` class, and
  `get`/`save`/`update`/`reset` work on it.
- **Environment configuration** (`backend/config.py`): import-time parsing is a pure function from the environment
  to a configuration record. `reload_config` is the `ConfigModule` class, whose method reassigns the module state.
- **Authentication** (`backend/auth.py`):
  - the `USERS` table is the `UserTable` class, loaded in place from the `AUTH_USERS` JSON object;
  - `authenticate`, `verify_password`, `validate_token` and `validate_auth_token` are decision chains over the
    table's contents;
  - bcrypt and PyJWT are function values whose assumed laws are stated in `Auth.CryptoLaws`.

Modules:

| module | contents |
|---|---|
| `Wrappers` | `Option` and `Result` |
| `Json` | JSON values and Python truthiness |
| `Bytes` | the byte type |
| `Text` | the Python `str` operations the core uses: `lower` (ASCII letters), `strip` (Python's whitespace set), `split` on one character, `endswith`, `str(int)` and `int(str)` |
| `Base64` | RFC 4648 section 4 encoding and its decoder |
| `Utf8` | RFC 3629 encoding and strict decoding, and Latin-1 |
| `FileParser` | `backend/file_parser.py` |
| `Calculator` | `_safe_eval_node` and `safe_calculate` |
| `ToolRegistry` | `get_available_tools` and the `exa_search` reply |
| `RuntimeSettings` | `backend/runtime_settings.py` |
| `Config` | `backend/config.py` |
| `Auth` | `backend/auth.py` |

Inputs from outside the model are parameters:
- the environment is a map keyed by variable name;
- the settings file is a `FileState`: missing, unreadable, or parsed JSON;
- `ast.parse`, `float()`, `json.loads` and `parse_pdf` are function values;
- the clock is a natural number of microseconds since the epoch;
- which optional packages are installed, and whether each tool constructor succeeds, is a boolean each.

`auth.py` reads `config.JWT_SECRET` and `config.AUTH_USERS`, which `backend/config.py` does not define.
They are fields of `Auth.AuthConfig`, next to `AUTH_ENABLED`.

## Model

| member | source | states |
|---|---|---|
| Calculator.ConstantRule | backend/tools.py:112-115 | A constant evaluates without raising exactly when it is an int, bool, float or complex. An int or bool is its own value, a float an opaque float value. Any other constant is rejected with "Unsupported constant type: ...". |
| Calculator.OperatorCheckedFirst | backend/tools.py:77-87 | A binary or unary operator outside `_OPERATORS` is rejected by name whatever its operands are. The binary whitelist is exactly `+ - * / // % **`. |
| Calculator.BinaryRule | backend/tools.py:120-126 | For a whitelisted operator, a failing left operand decides the outcome. Otherwise a failing right operand does. Otherwise the result is the operator applied to both values. |
| Calculator.IntegerArithmetic | backend/tools.py:78-84 | On integers, `+ - *` are exact and `**` by a non-negative exponent is the integer power. `/`, `//` and `%` by zero raise ZeroDivisionError, and so does `0 ** -n`. Otherwise `//` and `%` satisfy Python's floor law, with the remainder taking the divisor's sign. `/` and a negative power give a float. |
| Calculator.FloorDivModLaw | backend/tools.py:82-83 | Python's `//` and `%`, as defined here, satisfy `a == b*(a//b) + a%b`, with the remainder between 0 and the divisor. |
| Calculator.FloorDivExample | backend/tools.py:82-83 | `7 // -2 == -4`, `7 % -2 == -1`, `-7 // 2 == -4`, `-7 % 2 == 1`: floor, not Euclidean, semantics. |
| Calculator.RepeatLength | backend/tools.py:80 | A list repeated `n` times has `n` times its length, and none of it when `n <= 0`. |
| Calculator.SequenceConcat | backend/tools.py:78 | `+` on two lists or two tuples joins them. Any other right operand raises TypeError "can only concatenate list (not "int") to list", naming both types. |
| Calculator.SequenceRepeat | backend/tools.py:80 | `*` repeats a sequence by an integer or bool from either side when it fits `Py_ssize_t`. Beyond that it raises OverflowError "cannot fit 'int' into an index-sized integer". A multiplier that is not an integer raises "can't multiply sequence by non-int of type '...'". |
| Calculator.SequenceOperatorExamples | backend/tools.py:78-80 | `[1] + 1` and `[1] * [1]` raise CPython's TypeErrors, and `[1] * 10**20` raises OverflowError. |
| Calculator.FloatOperandExample | backend/tools.py:120-126 | A float is a value, not a failure. In `1/2 + 1/0` the right operand's ZeroDivisionError is the outcome. `1.5 + 1` is a float, and `1.5 + []` raises "unsupported operand type(s) for +: 'float' and 'list'". |
| Calculator.Extreme | backend/tools.py:93-94 | Among numbers, the index picked is that of the first element that is smallest (largest) of all. |
| Calculator.BestOfNumbers | backend/tools.py:93-94 | The comparison loop of `min` and `max` returns, on numbers, the first smallest (largest) element. |
| Calculator.CompareExamples | backend/tools.py:93-94 | `max([1], [2])` is `[2]` and `min([1, 2], [1])` is `[1]`: sequences compare element by element, then by length. `max(1, [1])` raises "'>' not supported between instances of 'list' and 'int'". |
| Calculator.EmptyArgument | backend/tools.py:93-94 | `min` and `max` of one empty iterable raise ValueError "...() arg is an empty sequence", naming the function. |
| Calculator.SumSpec | backend/tools.py:95 | `sum` of numbers from a numeric start is the start itself, unchanged, when there are no items, and otherwise the integer total of start and items. |
| Calculator.SumExamples | backend/tools.py:95 | `sum([], True)` is `True`, `sum([[1]], [])` is `[1]`, and `sum([[1]])` raises "unsupported operand type(s) for +: 'int' and 'list'". |
| Calculator.SumOfList | backend/tools.py:95 | `sum` of a list of three integers is their total. |
| Calculator.RoundIntSpec | backend/tools.py:92 | `round(x, n)` on integers is `x` for `n >= 0`. For `n < 0` it is a multiple of `10 ** -n` at most half of it away from `x`, and on a tie the one whose quotient is even. |
| Calculator.RoundQuotientSpec | backend/tools.py:92 | The rounded quotient is within half a step, and even on a tie. |
| Calculator.RoundExamples | backend/tools.py:92 | `round(5, 1)` is 5, and `round(25, -1)` and `round(15, -1)` are both 20. `round(-26, -1)` is -30. `round([], 1)` and `round(5, 1.5)` raise CPython's TypeErrors. |
| Calculator.CountErrorExamples | backend/tools.py:92-105 | A wrong argument count raises CPython's TypeError, e.g. "math.floor() takes exactly one argument (0 given)", "len() takes exactly one argument (0 given)", "sum() takes at least 1 positional argument (0 given)" and "round() missing required argument 'number' (pos 1)". |
| Calculator.EvalAllSpec | backend/tools.py:141-142 | Arguments are evaluated in order. Their evaluation succeeds exactly when every argument does, yielding each argument's value at its position. Otherwise the first failing argument's outcome is the outcome. |
| Calculator.EvalAllIsSequence | backend/tools.py:141-142 | Evaluating a list of nodes equals combining the nodes' separate outcomes. |
| Calculator.SequenceSpec | backend/tools.py:141-142 | Combining outcomes succeeds exactly when all succeed, and otherwise yields the first failure. |
| Calculator.Outcomes | backend/tools.py:141 | The per-node outcomes, with one per node at its position. |
| Calculator.EvalAllParentIrrelevant | backend/tools.py:141 | The evaluation of a list of nodes does not depend on the node that holds it. |
| Calculator.CallRule | backend/tools.py:135-143 | A callee that is not a bare name is rejected ("Only direct function calls are supported"). An unknown name is rejected ("Unsupported function: ..."). A table function is applied to its arguments' values, and keyword arguments are ignored. |
| Calculator.NameRule | backend/tools.py:145-151 | Only `pi` and `e` evaluate, to a float. Every other name, `sqrt` included, is "Unsupported variable: ...". |
| Calculator.ListRule | backend/tools.py:153-154 | A list succeeds exactly when every element does, giving a list of the same length with each element's value in place. |
| Calculator.TupleRule | backend/tools.py:156-157 | The same rule for tuples. |
| Calculator.OtherRule | backend/tools.py:162-163 | Every other node class is rejected with "Unsupported expression type: " and the class name. |
| Calculator.SafeCalculateReplies | backend/tools.py:165-180 | The input is stripped before parsing. A syntax error gives "Syntax error: ...". A success gives `str(result)`. An exception while evaluating or while printing gives its reply. A reply is missing exactly when a step needs a float's value. |
| Calculator.ErrorReplySpec | backend/tools.py:174-180 | ZeroDivisionError gives exactly "Error: Division by zero". ValueError, TypeError and OverflowError give "Error: " and the message. |
| Calculator.IntegerReply | backend/tools.py:170-172 | An integer result of at most 4300 digits is printed in decimal, and different such integers give different replies. |
| Calculator.IntegerReplyLimit | backend/tools.py:172-176 | An integer result of more than 4300 digits makes `str` raise ValueError, so the reply is "Error: " and CPython's digit-limit message. The same holds inside a list. |
| Calculator.CallOfBuiltin | backend/tools.py:137-143 | A call of a table function whose arguments evaluate to `vs` is the function applied to `vs`. |
| Calculator.EvalAllDone | backend/tools.py:141 | Nodes that each evaluate to a value evaluate together to the sequence of those values. |
| Calculator.ArithmeticExamples | backend/tools.py:120-126 | `2+2` is 4; `1/0` raises ZeroDivisionError. |
| Calculator.FloorExamples | backend/tools.py:82-84 | `0 ** -1` raises ZeroDivisionError; `-7 // 2` is -4. |
| Calculator.StringConstantExample | backend/tools.py:112-115 | `"x"` is rejected as "Unsupported constant type: <class 'str'>". |
| Calculator.SumExample | backend/tools.py:95 | `sum([1, 2, 3])` is 6. |
| Calculator.MaxExample | backend/tools.py:94 | `max(3, True, 7)` is 7. |
| Calculator.MinEmptyExample | backend/tools.py:93 | `min([])` raises "min() arg is an empty sequence". |
| Calculator.ReplyExamples | backend/tools.py:143 | A method call is rejected as not a direct call; the tuple `(1,)` and the list `[1, True]` print as Python prints them. |
| ToolRegistry.GetAvailableTools | backend/tools.py:349-384 | The loop that stops at the first raising constructor and otherwise drops missing tools, followed by the paid-tool appends, returns exactly `AvailableTools`: the first raised error, or the tool list. |
| ToolRegistry.FreeCandidates | backend/tools.py:351-357 | Five factories in fixed order. The calculator is always built, and the stock-data factory never raises. |
| ToolRegistry.FirstFailureSpec | backend/tools.py:189-234 | No constructor raises exactly when no factory raised. Otherwise the error is that of the first raising factory, all factories before it having returned a tool or `None`. |
| ToolRegistry.FirstFailurePrefix | backend/tools.py:351-357 | A failure among the first factories is the failure of the whole list. |
| ToolRegistry.AvailableToolsFailure | backend/tools.py:189-234 | `get_available_tools` raises exactly when langchain_community is present and the Wikipedia or arXiv constructor raises, or ddgs is also present and the web-search constructor raises. The error is the first of these in list order. |
| ToolRegistry.PresentSpec | backend/tools.py:360 | Dropping `None` keeps exactly the built tools, and never lengthens the list. |
| ToolRegistry.FreeToolsExplicit | backend/tools.py:189-234 | The built free tools are the calculator, then Wikipedia and arXiv (langchain_community present and the constructor succeeding), web search (also ddgs) and stock data (yfinance), in that order. |
| ToolRegistry.AvailableToolsMembership | backend/tools.py:349-384 | When no constructor raises: the calculator comes first, each free tool is present exactly when its packages are, and Tavily (Exa) is present exactly when its flag lowercases to "true", its key is non-empty and its constructor succeeds. |
| ToolRegistry.AvailableToolsOrder | backend/tools.py:349-384 | When no constructor raises, the list is in the fixed order: free tools, then Tavily, then Exa. |
| ToolRegistry.AvailableToolsParts | backend/tools.py:349-384 | When no constructor raises, the tool list is determined by the six availability conditions. |
| ToolRegistry.PartsMembership | backend/tools.py:349-384 | Each tool is in the assembled list exactly when its condition holds. |
| ToolRegistry.PartsOrder | backend/tools.py:349-384 | The assembled list is in the fixed order. |
| ToolRegistry.OrderedConcat | backend/tools.py:379 | Appending tools of a later rank keeps the fixed order. |
| ToolRegistry.NoPaidToolsByDefault | backend/tools.py:363-381 | Without the two flags, neither paid tool is offered. |
| ToolRegistry.FormatHits | backend/tools.py:322-331 | One formatted block per result, in order. |
| ToolRegistry.ExaSearchReply | backend/tools.py:307-340 | A search error gives "Exa search error: ...". No results gives "No results found.". Otherwise the reply is the formatted blocks joined by the separator. |
| ToolRegistry.JoinStartsWithFirst | backend/tools.py:337 | Joined blocks start with the first block and have the expected total length. |
| ToolRegistry.ExaReplyShape | backend/tools.py:326-337 | A reply with results starts with the first result's bold title and URL line. |
| FileParser.NoDotNoImage | backend/file_parser.py:85-86 | A name without a `.` is not an image, and its MIME type is image/jpeg. |
| FileParser.ExtensionSpec | backend/file_parser.py:85 | The extension is `.` plus the text after the last `.`, contains no further `.`, and ends the lowercased name. |
| FileParser.ExtensionOfSuffix | backend/file_parser.py:85 | A lowercased name ending in a dot-free extension has exactly that extension. |
| FileParser.IsImageFileIff | backend/file_parser.py:8 | A file is an image exactly when its lowercased name ends with one of .jpg, .jpeg, .png, .gif, .webp. |
| FileParser.MimeTableKeys | backend/file_parser.py:8-17 | The MIME table has exactly the image extensions as keys. |
| FileParser.MimeTypeSpec | backend/file_parser.py:89-100 | An image gets its table MIME type. Anything else gets image/jpeg. `.jpg` and `.jpeg` both give image/jpeg. |
| FileParser.MimeTypeBySuffix | backend/file_parser.py:99-100 | A name ending in an image extension gets that extension's MIME type. |
| FileParser.ParseImage | backend/file_parser.py:103-116 | The data URL starts with `data:` + MIME type + `;base64,`. |
| FileParser.ParseImageRoundTrip | backend/file_parser.py:114-116 | The payload has length 4·⌈n/3⌉ and decodes back to the bytes. |
| FileParser.ParseFile | backend/file_parser.py:119-146 | Parsing fails exactly when the name is unclassified, with "Unsupported file type: " + the name. Otherwise the tag is that of the classification. |
| FileParser.ParseFileOrder | backend/file_parser.py:134-146 | The checks run in order: image, then `.pdf`, `.txt`, `.md`/`.mdx` on the lowercased name. Each match returns its content and tag. |
| FileParser.GetSupportedExtensions | backend/file_parser.py:149-151 | Nine entries: the four text types, then the image extensions. |
| FileParser.SupportedIff | backend/file_parser.py:137-151 | `parse_file` accepts a name exactly when its lowercased form ends with a supported extension. |
| FileParser.EndsWithOneOfConcat | backend/file_parser.py:151 | Ending with one of two concatenated lists is ending with one of either. |
| FileParser.ParseTxtUtf8 | backend/file_parser.py:55-56 | The UTF-8 encoding of a text is decoded back to that text. |
| FileParser.ParseTxtFallback | backend/file_parser.py:57-58 | Invalid UTF-8 decodes as Latin-1, one character per byte with the byte's code. ASCII bytes decode the same way either way. |
| FileParser.ParseTxtCanonical | backend/file_parser.py:55-56 | Valid UTF-8 re-encodes to the same bytes. |
| FileParser.ParseMdIsParseTxt | backend/file_parser.py:61-72 | `parse_md` is `parse_txt`. |
| FileParser.ImageExample | backend/file_parser.py:85-100 | `a.JPG` is an image of type image/jpeg; `README` is not an image and defaults to image/jpeg. |
| FileParser.MarkdownExample | backend/file_parser.py:143-144 | `a.MDX` is markdown. |
| Base64.Encode | backend/file_parser.py:115 | The encoding of `n` bytes has 4·⌈n/3⌉ characters. |
| Base64.DecodeEncode | backend/file_parser.py:115 | Decoding the encoding gives back the bytes. |
| Base64.EncodeCharacters | backend/file_parser.py:115 | Every encoded character is in the RFC 4648 alphabet or is `=`. |
| Base64.EncodePadding | backend/file_parser.py:115 | The encoding ends in 0, 2 or 1 `=` for `n mod 3` = 0, 1, 2, and has no `=` elsewhere. |
| Base64.SymbolRoundTrip | backend/file_parser.py:115 | Each 6-bit value's symbol decodes to that value. |
| Base64.SymbolValue | backend/file_parser.py:115 | Only alphabet characters have a value, and the value's symbol is the character. |
| Base64.AlphabetTable | backend/file_parser.py:115 | The alphabet is A-Z, a-z, 0-9, `+`, `/` at positions 0-63. |
| Base64.EncodeExamples | backend/file_parser.py:115 | The test vectors of section 10 of RFC 4648: "", "Zg==", "Zm8=", "Zm9v", "Zm9vYg==", "Zm9vYmE=", "Zm9vYmFy" for the prefixes of "foobar". |
| Utf8.DecodeEncode | backend/file_parser.py:56 | Decoding the UTF-8 encoding of a text gives the text. |
| Utf8.EncodeDecode | backend/file_parser.py:56 | Bytes that decode re-encode to themselves, so only canonical encodings are accepted. |
| Utf8.DecodeFirstCanonical | backend/file_parser.py:56 | A decoded first character came from its own canonical encoding. |
| Utf8.AsciiDecodes | backend/file_parser.py:56-58 | ASCII bytes decode to the characters with those codes. |
| Utf8.Latin1 | backend/file_parser.py:58 | Latin-1 gives one character per byte, with the byte's code. |
| Utf8.DecodeExamples | backend/file_parser.py:56 | "hi" and "é" decode. Overlong, surrogate and truncated sequences are rejected. |
| RuntimeSettings.DefaultsValid | backend/runtime_settings.py:32-97 | The defaults are within bounds: "{full_query}", 0.5/0.3/0.4, "duckduckgo", 5 and 0. |
| RuntimeSettings.ConstructSpec | backend/runtime_settings.py:83-97 | Construction succeeds exactly when every field's value is accepted; the result is then valid. Each field takes its given or default value. A failure names a rejected field. |
| RuntimeSettings.BuildResolved | backend/runtime_settings.py:86-97 | When every field is accepted, each field of the built record is the resolved value. |
| RuntimeSettings.BuildValid | backend/runtime_settings.py:90-97 | When every field is accepted, the built record is in bounds. |
| RuntimeSettings.ValidFieldsInBounds | backend/runtime_settings.py:90-97 | A valid record has temperatures in [0,2], web_max_results in [1,10] and web_full_content_results in [0,10]. |
| RuntimeSettings.FieldsDetermine | backend/runtime_settings.py:83-97 | Two records with the same field values are equal. |
| RuntimeSettings.Dump | backend/runtime_settings.py:134 | `model_dump` has every field's key with that field's value. |
| RuntimeSettings.Coerce | backend/runtime_settings.py:86-97 | A value that is coerced has the field's kind, and a value of that kind is kept as it is. |
| RuntimeSettings.Resolve | backend/runtime_settings.py:86-97 | A resolved field value has the field's kind. |
| RuntimeSettings.FirstRejected | backend/runtime_settings.py:83-97 | No field is reported exactly when all are accepted. A reported field is one that is rejected. |
| RuntimeSettings.FirstRejectedPrefix | backend/runtime_settings.py:83-97 | The first rejected field in declaration order is the one reported. |
| RuntimeSettings.ConstructDump | backend/runtime_settings.py:127-134 | Constructing from a valid record's dump gives the record back. |
| RuntimeSettings.LoadValid | backend/runtime_settings.py:121-130 | `get_runtime_settings` always returns valid settings. |
| RuntimeSettings.LoadFallsBack | backend/runtime_settings.py:104-125 | A missing file, an unreadable file, or falsy or non-object content gives the defaults. |
| RuntimeSettings.LoadSaved | backend/runtime_settings.py:121-134 | Get after save returns the saved settings. |
| RuntimeSettings.MergeSpec | backend/runtime_settings.py:137-141 | Unpatched fields keep the current values, and patched fields take the patch values. A failure names a rejected field of the merged object. |
| RuntimeSettings.MergeNothing | backend/runtime_settings.py:137-141 | An empty patch changes nothing. |
| RuntimeSettings.MergeIgnoresUnknownKeys | backend/runtime_settings.py:140-141 | Patch keys that are not fields have no effect. |
| RuntimeSettings.SameFieldEntries | backend/runtime_settings.py:127 | Construction depends only on the field keys. |
| RuntimeSettings.UpdateExample | backend/runtime_settings.py:137-143 | Patching council_temperature to 0.77 changes only that field. |
| RuntimeSettings.RejectExample | backend/runtime_settings.py:96 | web_max_results 11 is rejected. |
| RuntimeSettings.SettingsStore.Get | backend/runtime_settings.py:121-130 | Returns the settings loaded from the current file, which are valid. |
| RuntimeSettings.SettingsStore.Save | backend/runtime_settings.py:133-134 | The file holds the dump, and the next get returns the saved settings. |
| RuntimeSettings.SettingsStore.Update | backend/runtime_settings.py:137-143 | Returns the merge of the loaded settings with the patch. On success it persists the result, so the next get returns it. On failure the file is unchanged. |
| RuntimeSettings.SettingsStore.Reset | backend/runtime_settings.py:146-150 | Persists and returns exactly the defaults. |
| Config.Getenv | backend/config.py:12 | A variable has a value exactly when it is set. |
| Config.GetenvOr | backend/config.py:19 | An unset variable gives the default. |
| Config.ModelListSpec | backend/config.py:23-25 | The council list has one entry per comma plus one. Each entry is the stripped piece at its position, empty pieces included; entries contain no comma and are already stripped. |
| Config.ModelListExample | backend/config.py:25 | `"a, b ,,c"` gives `["a", "b", "", "c"]`. |
| Config.ModelListOfPieces | backend/config.py:25 | The list is the pieces of the split, each stripped. |
| Config.DefaultsByRouter | backend/config.py:27-53 | Each default council has four models: the Ollama list for "ollama", the OpenRouter list otherwise. Each default chairman is in its council. |
| Config.CouncilAndChairman | backend/config.py:23-53 | A non-empty COUNCIL_MODELS gives its parsed list, and an unset or empty one gives the router's default. The same holds for CHAIRMAN_MODEL. |
| Config.RouterLowered | backend/config.py:9 | ROUTER_TYPE is the lowercased variable or "openrouter", and is already lowercase. |
| Config.Convert | backend/config.py:44-60 | The numeric conversions succeed exactly when `int()` and both `float()`s do, and they give those values. `int()` rejects a number of more than 4300 digits. |
| Config.MaxCouncilModelsDigitLimit | backend/config.py:44 | A MAX_COUNCIL_MODELS of more than 4300 digits is an `InvalidInt` error, like any other malformed size. |
| Config.MaxCouncilModelsRoundTrip | backend/config.py:44 | A decimal MAX_COUNCIL_MODELS, or none at all (5), is read back exactly. |
| Config.DefaultConversions | backend/config.py:44-60 | Without the variables, the values are 5, 120.0 and 180.0. |
| Config.Parse | backend/config.py:9-86 | Parsing succeeds exactly when the conversions do, and then assembles the record from the environment. |
| Config.Load | backend/config.py:9-92 | Import succeeds exactly when parsing succeeds and the router is "openrouter" or "ollama". |
| Config.LoadRouterError | backend/config.py:89-92 | Import fails on the router exactly when the conversions succeed and the router is invalid. A conversion error comes first. |
| Config.RouterErrorMessage | backend/config.py:90-92 | The message starts "Invalid ROUTER_TYPE: " and the router. |
| Config.FlagSpec | backend/config.py:68-78 | A flag is true exactly when its value, or its default when unset, lowercases to "true". |
| Config.FlagExamples | backend/config.py:73 | "True" and "TRUE" enable a flag. "1", "yes" and unset do not. |
| Config.FlagsByDefault | backend/config.py:68-78 | Unset flags are false, except ENABLE_MEMORY, which is true. |
| Config.GoogleDriveEnabledIff | backend/config.py:81-86 | Drive is enabled exactly when the folder id is set and non-empty. |
| Config.ValidateOpenRouterConfig | backend/config.py:95-106 | Validation fails exactly when the router is "openrouter" and the key is unset or empty. |
| Config.EmptyAssembly | backend/config.py:9-86 | The configuration of an empty environment, field by field. |
| Config.EmptyEnvironmentDefaults | backend/config.py:9-106 | An empty environment imports with the defaults, and then lacks the OpenRouter key. |
| Config.ReloadAgreesWithImport | backend/config.py:109-201 | When import succeeds, reload computes the same configuration. |
| Config.ReloadSkipsRouterCheck | backend/config.py:128 | ROUTER_TYPE="Local" fails at import but reloads to "local". |
| Config.SectionsAssemble | backend/config.py:128-201 | Reassigning the sections in source order gives the assembled configuration. |
| Config.PartialReloadsIdempotent | backend/config.py:128-201 | Repeating the reassignments of a reload that stopped partway changes nothing more. |
| Config.ConfigModule.Reload | backend/config.py:109-201 | Reload succeeds exactly when parsing does, leaving the parsed configuration. When a conversion raises, the globals assigned before it keep their new values. |
| Config.ConfigModule.ReloadAfterInt | backend/config.py:160-201 | With MAX_COUNCIL_MODELS converted, the reassignments from it to the end, stopping at the first failing `float()` with the globals before it updated. |
| Config.ConfigModule.ReloadRouting | backend/config.py:128-158 | Reassigns the router, key, URL, host and council. |
| Config.ConfigModule.ReloadCouncilSize | backend/config.py:160-171 | Reassigns MAX_COUNCIL_MODELS, the chairman and the data directory. |
| Config.ConfigModule.ReloadRest | backend/config.py:175-201 | Reassigns the remaining globals. |
| Config.ReloadTwice | backend/config.py:109-201 | Two reloads with the same environment give the same result and state as one. |
| Text.StripSpec | backend/config.py:25 | `strip` removes exactly the leading and trailing whitespace, leaving a slice that neither starts nor ends with whitespace. |
| Text.StripIdempotent | backend/config.py:25 | Stripping twice is stripping once. |
| Text.SplitSpec | backend/config.py:25 | `split` gives one more piece than there are separators, none containing one, and joining the pieces gives back the string. |
| Text.SplitJoin | backend/config.py:25 | Splitting joined separator-free pieces gives the pieces. |
| Text.LastPieceSpec | backend/file_parser.py:85 | `split('.')[-1]` contains no `.`, ends the string, and follows its last `.` (or is the whole string). |
| Text.LastPieceOfSuffix | backend/file_parser.py:85 | A string ending in `.` + a dot-free suffix has that suffix as its last piece. |
| Text.LowerIdempotent | backend/config.py:9 | Lowercasing twice is lowercasing once. |
| Text.LowerChar | backend/config.py:9 | Only A-Z change, each to its lowercase letter. |
| Text.NatToDecimal | backend/tools.py:172 | `str(n)`: decimal digits with no leading zero. |
| Text.NatToDecimalRoundTrip | backend/tools.py:172 | The digits of `str(n)` denote `n`. |
| Text.IntToDecimalInjective | backend/tools.py:172 | Different integers print differently. |
| Text.SignedDecimal | backend/tools.py:172 | A negative integer prints as `-` and its magnitude. |
| Text.ParseIntRoundTrip | backend/config.py:44 | `int(str(n)) == n` for `n` of at most 4300 digits; a longer decimal is rejected. |
| Text.ParseIntLimit | backend/config.py:44 | A digit group of more than 4300 digits is rejected, with or without a sign. |
| Text.ParseIntIgnoresSpace | backend/config.py:44 | `int()` ignores surrounding whitespace. |
| Text.ParseIntNegativeExample | backend/config.py:44 | `int(" -3") == -3`. |
| Text.ParseIntUnderscoreExample | backend/config.py:44 | `int("1_0") == 10`. |
| Text.ParseIntEmptyExample | backend/config.py:44 | `int("")` raises. |
| Text.ParseIntRejects | backend/config.py:44 | `int("1__0")` and `int("_1")` raise. |
| Auth.UserTable.InitFromEnv | backend/auth.py:44-88 | The loading loop updates the table in place, exactly as `InitUsers` of the old contents. |
| Auth.UserTable.Reload | backend/auth.py:295-304 | After a reload the table is `InitUsers` of the empty table, whatever it held before. |
| Auth.UserTable.Put | backend/auth.py:74-79 | Dictionary assignment: a new name is appended to the keys, an existing one keeps its place. |
| Auth.UserTable.Clear | backend/auth.py:301 | The table becomes empty. |
| Auth.UserTable.Usernames | backend/auth.py:285-292 | Every user exactly once. |
| Auth.PutUserSpec | backend/auth.py:74-79 | Assignment keeps the table well formed, sets the record and leaves other names alone. |
| Auth.InitUsersNoOp | backend/auth.py:54-88 | Loading changes nothing when authentication is disabled, bcrypt is missing, or the text is not a JSON object. |
| Auth.InitUsersUnset | backend/auth.py:61 | An unset or empty AUTH_USERS loads no user. |
| Auth.AddEntriesRaised | backend/auth.py:70-79 | Loading raises exactly when some entry with a name has a truthy password that cannot be hashed: not a string, or refused by `hashpw`. |
| Auth.AddEntriesWellFormed | backend/auth.py:70-79 | Loading keeps the table well formed. |
| Auth.AddEntriesNames | backend/auth.py:70-79 | Without an exception, a name has a record exactly when it had one or an accepted entry carries it. |
| Auth.AddEntriesRecords | backend/auth.py:74-79 | Each accepted entry's record holds the hash of its password and its name. |
| Auth.AddEntriesOrder | backend/auth.py:70-79 | Loaded into an empty table, the keys are the accepted names in the object's order. |
| Auth.AddEntriesStops | backend/auth.py:70-79 | A bad entry stops the loop with the entries before it loaded. |
| Auth.NoBadNoRaise | backend/auth.py:70-79 | Entries without a bad one load without raising. |
| Auth.ReloadSpec | backend/auth.py:295-304 | After a reload the table holds exactly the configured users: the accepted entries, in order, with hashed passwords. It raises exactly when an entry is bad. |
| Auth.VerifyPasswordSpec | backend/auth.py:132-148 | Verification holds exactly when bcrypt is present and `checkpw` returns true, so a raising `checkpw` means false. A password verifies against its own hash whenever it can be hashed. |
| Auth.CreateTokenSpec | backend/auth.py:151-181 | Creation fails exactly when PyJWT or the secret is missing, PyJWT first. The expiry is 60 days after issue, in milliseconds. |
| Auth.TokenRoundTrip | backend/auth.py:151-219 | An issued token validates exactly from the second it was issued in until the second it expires in, and only while its user is in the table; it then validates to that user. |
| Auth.LiveBounds | backend/auth.py:168-179 | The window is in whole seconds. A token is live from its issue time until one second before its expiry. It is never live a second or more before issue, or at or after the expiry time. |
| Auth.ValidateTokenSpec | backend/auth.py:184-219 | A name is returned exactly when PyJWT and the secret are present, the token decodes, and `sub` is a non-empty string naming a user. The name is that `sub`. |
| Auth.AuthenticateOrder | backend/auth.py:222-273 | The checks run in fixed order: disabled, missing credentials, missing secret, unknown user, bad password, missing PyJWT. Each gives its response when all before it pass. |
| Auth.AuthenticateSuccess | backend/auth.py:252-282 | Login succeeds exactly when all checks pass. It then returns user={"username"}, the token issued now, and an expiry 60 days later. A failure carries no user or token. |
| Auth.SameResponseForUnknownAndWrong | backend/auth.py:252-264 | An unknown username and a wrong password get the identical response. |
| Auth.ValidateAuthTokenSpec | backend/auth.py:307-334 | An empty token gives "Token is required", a token that does not validate gives "Invalid or expired token", and anything else is a success naming a user in the table. |
| Auth.LoginAfterReload | backend/auth.py:44-282 | After a reload, a configured user logs in with their password, and the token validates to them exactly within its live window. |

## Left out

- The deliberation pipeline (`backend/council.py`) and `main.py`, `storage.py`, `openrouter.py`, `ollama.py` and `gdrive.py` are not part of this model.
- Calculator floats: a float is an opaque value `VFloat`. Any step that needs a float's value evaluates to `Unmodelled`, and `SafeCalculate` gives no reply for it. Such steps include the float functions (`sqrt` … `ceil` on a float), float division and comparison, `str` of a float, and an integer turned into a float beyond about 10^308 (OverflowError in Python). Complex constants are accepted but evaluate to `Unmodelled`.
- Calculator: RecursionError for very deeply nested expressions is not modelled. Evaluation is total on finite trees.
- Calculator: MemoryError for huge repetitions or powers is not modelled. Python integers and lists are unbounded here.
- Calculator: the error texts are those of CPython 3.12. The 4300-digit limit of `str` and `int` applies from CPython 3.11 and is its default `sys.set_int_max_str_digits` value.
- Calculator: `ast.parse` is a parameter that returns a tree, a syntax error or a value error. Integer and bool arithmetic, sequences and the table functions are modelled on their values; floats are opaque.
- The network and library tools (Wikipedia, arXiv, DuckDuckGo, stock data, Tavily, Exa clients): only whether each factory's package is present and whether each constructor succeeds or raises is modelled, as booleans. What the tools do over the network is not modelled.
- `parse_pdf` is a parameter of `FileParser.ParseFile` (pymupdf is a foreign library).
- `Text.Lower` lowers ASCII letters only. Every string the core compares a lowered value with is ASCII, so no comparison changes. The lowered text itself differs from Python for non-ASCII letters.
- `Text.ParseInt` accepts ASCII digits only; Python's `int()` also accepts other Unicode decimal digits.
- Text.ParseIntRoundTrip: stated for natural numbers; `Text.SignedDecimal` covers the sign of a negative one.
- `float()` is a parameter of the configuration parser, and temperatures are reals. IEEE rounding is not modelled.
- Config.ConfigModule.Reload: the globals are grouped into four sections whose reassignments run in source order. An exception is modelled only at the three numeric conversions, the points of `reload_config` that can raise.
- `load_dotenv` and the real environment: the environment is a map given to the parse.
- The text of conversion error messages (`ValueError` from `int()`/`float()`): only which variable failed and its text are kept.
- RuntimeSettings.Defaults: the default stage-2 and stage-3 prompt templates keep their text up to their last placeholder, including the stage-3 opening sentences in full. The instructions that follow the last placeholder are not modelled: the full wording makes every proof about the defaults too costly for the verifier.
- RuntimeSettings.Coerce: pydantic's lax coercion is modelled only for an integer given to a float field. Pydantic also accepts numeric strings, bools and integral floats for the number fields; the model rejects them.
- Runtime settings file I/O: the file is a `FileState` (missing, unreadable, or JSON). `json.dumps` text and the atomic rename of `_atomic_write_json` are not modelled.
- Token validation assumes PyJWT's default options with zero leeway: `exp` and `iat` are both checked, in whole seconds.
- bcrypt and PyJWT internals. Hashing, checking, encoding and decoding are function values, and `Auth.CryptoLaws` states their assumed laws. The random salt of `gensalt()` is folded into the given hash function.
- `json.loads` of AUTH_USERS is a parameter. `Auth.ParserLaws` assumes that `{}` parses to the empty object and that an object's names are distinct.
- Auth.CreateTokenSpec: the expiry is `(now + 60 days) / 1000` on an integer microsecond clock; the floating-point product `expires.timestamp() * 1000` is not modelled.
- `validate_jwt_config` and `hash_password` (`backend/auth.py:27-38`, `117-129`) are not called by the modelled operations and are left out. The loader's own `hashpw` call may refuse a password, as bcrypt 5 does for one longer than 72 bytes; that is `hashpw` returning `None`. The pydantic request and response classes are datatypes.
- Logging everywhere.
