# A verified model of a notebook data-science assistant

The system is a set of IPython line magics (`%ask`, `%ask_code`, `%ask_data`,
`%clear_history`, `%show_variables`, `%show_model_config`) that let a notebook
user question a hosted language model about the data in the session. Three
deterministic pieces carry its logic, and this Dafny project models them:

- **Context extraction** (`context.py`, module `Context` in `context.dfy`).
  `filter_variables` picks the user-defined variables of a namespace.
  `extract_variables_from_query` collects the identifier-shaped words of a
  query. `get_variable_info` describes one value. Its branch is chosen by
  probing, in order, for a DataFrame, a function, `__dict__` and `__len__`.
  `get_context` joins the descriptions of the variables a query names.
  A runtime value is a `Value` record of what Python introspection reports
  about it (`type().__name__`, `shape`/columns/`head()`, `getdoc`/`getsource`,
  `dir`, `len`, `str`, `__doc__`, module-ness, callability). The four branch
  tests (DataFrame, function, `__dict__`, `__len__`) and `str(value)`, which
  can raise, are `Option`s; the other probes are assumed to succeed (see
  "## Left out"). A namespace is the sequence of its `dict.items()`.
  The four functions are methods whose loops are proved against specification
  functions (`UserVariables`, `QueryNames`, `DescriptorLines`, `IsContext`).
- **Fence stripping** (`code_parser_utils.py`, module `CodeParser` in
  `code_parser.dfy`). `remove_triple_backtics` is two Python `str.replace`
  calls, modelled as the recursive function `DeleteAll`: leftmost,
  non-overlapping deletion.
- **Conversation history** (`oci_genai_magics.py`, module `Magics` in
  `magics.dfy`). The class `GenaiMagics` owns `history`. It also records in
  `lastRequest` the message list each command hands to the model. The model's
  streamed reply is a caller-supplied `seq<string>` of chunk contents, and the
  three system prompts are opaque values.

Shared helpers: `text.dfy` (module `Text`) holds ASCII versions of Python's
`str.startswith`, `isspace`, `isidentifier`, `split()`, `strip()`, `join` and
`str(n)`. `seqs.dfy` (module `Seqs`) holds order-preserving subsequences.

Notes on the code as written, which the model follows:

- `get_context` drops only names that start with `_`. Unlike
  `filter_variables`, it keeps modules, callables, `In` and `Out`
  (context.py:107).
- Every `ask`/`ask_code` sends the whole history (oci_genai_magics.py:78 and
  105), however long it has grown. `MAX_MSGS_IN_HISTORY` (config.py:20) and
  `TOKENIZER` (config.py:26) are never read.
- In the fallback branch of `get_variable_info`, the line `Type: <name>` is
  emitted twice (context.py:42 and 88). The model keeps both lines.
- In the function branch, `filter(None, ...)` also drops an empty source text.
  The model drops it too.

## Model

| member | source | states |
|---|---|---|
| Context.Lookup | context.py:113-114 | finds a value exactly when the name is a key, and the pair it returns is an entry of the namespace |
| Context.UserVariables | context.py:14-22 | the selection filter_variables makes: never more entries than the namespace, and every kept entry passes the four tests |
| Context.UserVariablesMembers | context.py:14-22 | an entry is kept iff its name does not start with `_`, its value is no module, its name is not `In`/`Out` and its value is not callable; kept values are unchanged |
| Context.UserVariablesInOrder | context.py:15-22 | the kept entries are a subsequence of the namespace, in its iteration order |
| Context.UserVariablesUnique | context.py:22-24 | the result is again a dictionary: no name twice |
| Context.FilterVariables | context.py:12-24 | the loop returns exactly the entries passing the four tests, in namespace order, with unique names |
| Text.WordLength | context.py:31 | the length of the maximal run of non-whitespace characters at the start of the text |
| Text.Words | context.py:31 | every word of `split()` is non-empty and contains no whitespace |
| Text.WordsKeepNonSpace | context.py:31 | the words, concatenated, are exactly the non-whitespace characters of the text in order |
| Text.WordsEmpty | context.py:31 | `split()` yields no word iff the text is empty or all whitespace |
| Text.WordsOfWord | context.py:31 | a non-empty text without whitespace is one word |
| Text.Gaps | context.py:31 | the whitespace around and between the words: one more run than words, all whitespace, the inner runs non-empty, the first empty exactly when the text does not start with whitespace |
| Text.WordsDecompose | context.py:31 | the text is exactly its gaps and words interleaved, so `split()` cuts at every whitespace run and only there: each word is a maximal non-whitespace run |
| Context.ExtractVariablesFromQuery | context.py:27-35 | returns exactly the set of whitespace-separated tokens that are identifiers; none contains whitespace; an empty or blank query gives the empty set |
| Context.Truncate | context.py:80 | a sample is the text itself when at most the cap, otherwise its first cap characters then `...`; never longer than cap + 3 |
| Text.NatToString | context.py:46 | the decimal text of a count is non-empty, all digits, with no leading zero |
| Text.ParseNatToString | context.py:78 | the decimal text of a count reads back to the count |
| Text.TrimStart | context.py:94 | removes exactly the leading whitespace |
| Text.TrimEnd | context.py:94 | removes exactly the trailing whitespace |
| Text.Strip | context.py:94 | the stripped documentation neither starts nor ends with whitespace |
| Text.StripIsInfix | context.py:94 | the stripped text sits in the original between whitespace-only borders |
| Context.PublicNamesMembers | context.py:72-74 | an attribute name is listed iff `dir` reports it and it does not start with `_` |
| Context.PublicNamesInOrder | context.py:72-74 | the listed attribute names keep `dir` order |
| Context.AppendColumnLines | context.py:48-49 | the column loop adds exactly one `- col (dtype)` line per column, in column order |
| Context.AppendAttributeLines | context.py:72-74 | the attribute loop adds one `- name` line per public attribute name |
| Context.NonEmpty | context.py:66 | `filter(None, ...)` keeps exactly the non-empty strings and never adds any |
| Context.NonEmptyCons | context.py:66 | `filter(None, ...)` keeps the first string exactly when it is non-empty, then filters the rest |
| Context.NonEmptyFiveSlots | context.py:66 | `filter(None, ...)` over a five-slot list with three never-empty slots keeps those and each other slot only when it is non-empty |
| Context.FilterFunctionSlots | context.py:55-66 | filtering the function branch's list leaves the documentation line only when documentation exists, and the source only when it is non-empty |
| Context.DescriptorLines | context.py:41-99 | every branch yields at least three lines, opening with `Variable: <name>` and then the type line, which the function branch writes as `Type: function` |
| Context.GetVariableInfo | context.py:38-101 | the method returns the joined descriptor lines of the first matching branch |
| Context.DescriptorStartsWithName | context.py:41-101 | every joined descriptor begins with `Variable: <name>` and a line break |
| Context.FrameDescriptor | context.py:45-51 | a DataFrame, whatever else it offers, gives type, shape, `Columns:`, one line per column in order, the sample header and the head text |
| Context.FunctionDescriptor | context.py:54-66 | a function gives `Type: function`, a documentation line only when documentation exists, `Source code:` and the source |
| Context.ObjectDescriptor | context.py:69-74 | an object with `__dict__` lists exactly its attribute names not starting with `_`, in `dir` order |
| Context.ContainerDescriptor | context.py:77-83 | a sized value gives its length and, unless `str` fails, the line `Sample: ` followed by the text cut to 100 characters plus `...`, so at most 111 characters |
| Context.ScalarDescriptor | context.py:86-99 | anything else repeats the type line; unless `str` fails, the string representation cut to 100 characters plus `...`, and when there is a docstring, `Documentation:` and the stripped docstring cut to 500 characters plus `...` |
| Text.JoinLinesHead | context.py:101 | the joined text starts with the first line and a line break when more lines follow, and is non-empty when the first line is |
| Context.PublicEntries | context.py:107 | the filtered namespace holds exactly the entries whose name does not start with `_` |
| Context.LookupPublic | context.py:107 | looking up in the filtered namespace finds nothing for `_` names and the namespace's own value otherwise |
| Context.DescriptorsEmpty | context.py:112-117 | joining the descriptors of names that are all keys gives "" only when no name is described |
| Context.GetContext | context.py:104-117 | the result joins one descriptor per name that is an identifier token of the query, a key of the namespace and not `_`-prefixed, each exactly once in some set order; it is empty iff no name matches |
| CodeParser.DeleteAll | code_parser_utils.py:10-11 | `str.replace(pat, "")` never lengthens the text |
| CodeParser.RemoveTripleBackticks | code_parser_utils.py:6-12 | the tagged fences are deleted first, then the bare ones; the result is never longer than the input |
| CodeParser.DeleteAllSubsequence | code_parser_utils.py:10-11 | `str.replace(pat, "")` only deletes characters and keeps the order of the rest |
| CodeParser.RemoveTripleBackticksDeletesOnly | code_parser_utils.py:6-12 | the output is a subsequence of the input, so it is no longer than the input |
| CodeParser.DeleteAllAbsent | code_parser_utils.py:10-11 | replacing a pattern that does not occur leaves the text unchanged |
| CodeParser.TaggedFenceHasFence | code_parser_utils.py:10-11 | any text containing the tagged fence contains a bare fence |
| CodeParser.RemoveTripleBackticksNoFence | code_parser_utils.py:10-11 | an input without a bare fence is returned unchanged |
| CodeParser.FirstCharKept | code_parser_utils.py:11 | a leading non-backtick character survives fence deletion |
| CodeParser.DeleteFenceLeavesNone | code_parser_utils.py:11 | after deleting bare fences, no three backticks remain in a row |
| CodeParser.RemoveTripleBackticksNoFenceLeft | code_parser_utils.py:10-11 | the output never contains a bare or a tagged fence |
| CodeParser.RemoveTripleBackticksIdempotent | code_parser_utils.py:6-12 | stripping twice gives the same text as stripping once |
| CodeParser.DeleteFenceKeepsFirst | code_parser_utils.py:11 | a text that does not start with a backtick keeps its first character, and deletion goes on with the rest |
| CodeParser.DeleteFenceKeepsTickless | code_parser_utils.py:11 | a prefix without backticks passes through fence deletion untouched |
| CodeParser.FencedBlockExample | code_parser_utils.py:10-11 | a fenced Python block loses both fences and its tag: the content between them is all that is left |
| CodeParser.BacktickRunExamples | code_parser_utils.py:11 | deletion is leftmost and non-overlapping: six backticks become nothing, four become one |
| Magics.AlternatingAppend | oci_genai_magics.py:87-88 | appending a question and its answer keeps the history made of whole turns |
| Magics.AlternatingPositions | oci_genai_magics.py:34-115 | the invariant that `__init__` (line 34), `clear_history` (63), `ask` (87-88) and `ask_code` (114-115) keep: a history of whole turns has even length, questions at even positions and answers at odd ones, and conversely |
| Magics.GenaiMagics.constructor | oci_genai_magics.py:28-34 | a new session has an empty history |
| Magics.GenaiMagics.PrintStream | oci_genai_magics.py:36-53 | returns the chunk contents concatenated in order, of the summed length, and "" for an empty stream |
| Magics.GenaiMagics.ClearHistory | oci_genai_magics.py:55-63 | the history is empty afterwards whatever it held, so clearing twice is clearing once |
| Magics.GenaiMagics.RecordTurn | oci_genai_magics.py:86-88 | saving a turn appends exactly the question, then the answer, and keeps the history made of whole turns |
| Magics.GenaiMagics.Ask | oci_genai_magics.py:66-88 | sends the system prompt, the whole history and the question (history length + 2 messages), then appends exactly the question and the streamed answer, keeping the old history as a prefix and the whole-turns invariant |
| Magics.GenaiMagics.AskCode | oci_genai_magics.py:90-115 | sends the question prefixed with `Context: <context>` and a blank line, where the context is a possible result of get_context, but records only the bare question and the answer |
| Magics.GenaiMagics.AskData | oci_genai_magics.py:117-137 | sends exactly a system message and the question with its context, and leaves the history untouched |
| Magics.GenaiMagics.ShowVariables | oci_genai_magics.py:139-153 | lists exactly the entries filter_variables keeps, and changes no state |
| Magics.GenaiMagics.ShowModelConfig | oci_genai_magics.py:155-167 | reports the model, endpoint, temperature and token limit of config.py, and changes no state |

## Left out

- The language model and its client (`oci_models.get_llm`, `llm.stream`): the streamed chunks are an input, and transport or quota errors are not modelled.
- Printing: `print_stream` echoes chunks, `clear_history` and the show commands print text. Only the returned or shown values are modelled.
- IPython: `load_ipython_extension` and the registration of the magics are left out. So is the `shell.user_ns` plumbing: the namespace is a parameter of the commands that read it.
- The text of prompts.py: the prompts are opaque values given to the constructor.
- csv_analyzer.py is not part of this model. It runs generated code with `exec`, redirects standard output and reads CSV files. Its deterministic steps are calls to `get_variable_info` and `remove_triple_backtics`, both covered, and the building of two message lists for the model.
- Unicode: whitespace and identifiers follow ASCII rules. Whitespace is space, tab to carriage return, and 0x1C to 0x1F. An identifier is a letter or `_`, then letters, digits or `_`.
- Introspection probes outside any `try` are assumed to succeed: `value[col].dtype` for each column (context.py:49, which raises when a column label is repeated), `dir(value)` (context.py:70), `len(value)` (context.py:78) and `inspect.getsource` (context.py:64). When one of them raises, `get_variable_info` and `get_context` raise, and `ask_code` and `ask_data` stop before sending anything, with the history as it was; the model describes the value instead.
- Python introspection is supplied as fields of `Value`. `str(value)` raising is modelled as an absent text, and the lines that would follow it are then omitted.
- Context.GetContext: the order of the descriptors is any enumeration of the matched names, because a Python set fixes no iteration order.
- Magics.GenaiMagics.AskCode: the context is a ghost result related to the request by `IsContext`, for the same reason.
- Magics.GenaiMagics.ShowVariables: returns the entries instead of the printed `* name: value` lines.
- Magics.GenaiMagics.ShowModelConfig: the temperature is the printed form of the float `0.1`.
