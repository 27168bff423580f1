# Healthcare agent: record aggregation, in Dafny

This project models the deterministic core of a command-line medical
assistant. A language model classifies a question into record categories
(`medical_record`, `image_record`, `lab_record`). The agent then looks each
category up in a fixed table of record files and reads the files that exist.
From the records found it builds one prompt for a second language model.
When no record is found it returns a fixed sentinel reply instead of asking
the model. A terminal loop feeds it questions until the user types `exit`.

Files:

- `Text.dfy` (module `Text`): Python's `str.strip()`, `str.lower()` and
  `sep.join(parts)` on `seq<char>`, with the layout of a join proved once.
- `Agent.dfy` (module `HealthcareAgent`): the category table, the lookup of
  a label, the collected entries (`Collect`, a filter-map over the labels),
  `combined_text`, `task_prompt`, the method `HandleContexts` with its loop,
  and `Run`.
- `Console.dfy` (module `Console`): the exit test and the input loop of
  `main`.

Modelling choices:

- The file system is a `map<string, string>` from a path to the text that
  `file.read()` returns for it: UTF-8 decoded, with `"\r\n"` and `"\r"`
  already translated to `"\n"` by Python's universal-newline mode. A path
  exists when it is a key.
- The prompt text of `task_prompt` is the constant `AnswerTemplate`, whose
  three pieces surround `combined_text` and the question. The lemmas about
  the prompt hold for any template.
- The category table is the constant `Files`. The operations take a table as
  a parameter, so every property holds for any table as well.
- The two language-model agents are function parameters. `assistant` maps a
  prompt to an answer. `classify` maps a question to the parsed label list,
  or to `None` when the conversion of the model's answer to a list fails.
- `HandleContexts` also returns `asked`: the prompt the assistant received,
  or `None` when it was not called. This makes "the assistant is not
  invoked" something a contract can state. The assistant's answer could
  happen to equal the sentinel, so the response alone would not show it.
- A path that is the empty string is skipped, as in the source. There,
  `not file_path` is true for `""` as well as for a missing key.
- Records are collected with the original, unstripped label. Only the
  lookup uses the stripped label.
- The code skips only a missing file (main.py:74-84); any other read error
  raises.

## Model

| member | source | states |
|---|---|---|
| `Text.TrimStartSpec` | main.py:73 | removing leading whitespace keeps a suffix, drops only whitespace characters (those of Python's `str.isspace`), and leaves none in front |
| `Text.TrimEndSpec` | main.py:73 | removing trailing whitespace keeps a prefix, drops only whitespace characters, and leaves none at the end |
| `Text.StripSpec` | main.py:73 | the stripped label is the slice of the label after its leading whitespace, only whitespace follows it, and it neither starts nor ends with whitespace |
| `Text.StripIdempotent` | main.py:73 | stripping an already stripped label changes nothing |
| `Text.JoinLayout` | main.py:91 | in `sep.join(parts)` part `k` stands at `Offset(sep, parts, k)`, a separator follows every part but the last, and the text ends with the last part |
| `Text.OffsetNext` | main.py:91 | each part starts one part and one separator after the previous one |
| `HealthcareAgent.CollectSound` | main.py:70-84 | never more entries than labels, and every entry's text is the text read from the file its stripped label maps to |
| `HealthcareAgent.CollectSnoc` | main.py:72-82 | handling one more label appends that label's entry, if it resolves, after the entries collected so far |
| `HealthcareAgent.CollectKeepsOrder` | main.py:72-82 | the entry labels are a subsequence of the input labels |
| `HealthcareAgent.CollectCounts` | main.py:72-82 | each label occurs among the entries as often as in the input when it resolves and never otherwise, so duplicate labels are kept |
| `HealthcareAgent.CollectEmpty` | main.py:86-88 | nothing is collected exactly when no label resolves, the empty label list included |
| `HealthcareAgent.BlockLayout` | main.py:91 | an entry's block is `"Contexto: "`, its label, a newline and its record, in that order |
| `HealthcareAgent.CombinedLayout` | main.py:91 | `combined_text` holds the block of each entry at increasing offsets, separated by `"\n\n"`, starting at 0 and ending with the last block |
| `HealthcareAgent.RecordInCombined` | main.py:91 | each collected record occurs in `combined_text` right after its header, inside its entry's block |
| `HealthcareAgent.PromptContains` | main.py:92-100 | the prompt contains `combined_text` and, after it, the question |
| `HealthcareAgent.PromptHoldsRecord` | main.py:91-100 | every collected record, with its header, occurs in the prompt at a position fixed by the layout of `combined_text` |
| `HealthcareAgent.HandleContexts` | main.py:68-103 | with no entries the reply is the sentinel and the assistant is not asked; otherwise the assistant is asked once, with the prompt built from the entries in input order, and its answer is the reply |
| `HealthcareAgent.Run` | main.py:105-117 | a failed conversion of the classifier's answer gives the parse-failure message without asking the assistant; otherwise the labels are handled as in `HandleContexts` |
| `HealthcareAgent.UnstrippedLabelKept` | main.py:73-82 | with the agent's table, `" lab_record\n"` yields one entry that keeps that exact label and the full lab file |
| `HealthcareAgent.UnknownOrMissingSkipped` | main.py:73-76 | a label missing from the table and a label whose file is absent are both skipped |
| `HealthcareAgent.TwoRecordsInOrder` | main.py:91 | with the agent's table, labels `image_record`, `lab_record` give the image block, a blank line, then the lab block |
| `Console.ExitCaseVariants` | main.py:130 | the exit test accepts exactly the sixteen letter-case variants of `exit` and nothing else |
| `Console.Session` | main.py:128-135 | the questions passed on are the input lines before the first exit line, none of them an exit line; the loop ends on an exit line exactly when input remains |

## Left out

- The two language-model calls (main.py:64, 102) are foreign asynchronous calls. The classifier is the parameter `classify` and the answering agent the parameter `assistant`.
- The conversion of the classifier's answer with `eval` (main.py:112) runs model output as code. It is folded into `classify`. No parser is modelled.
- The classification prompt text (main.py:50-62) is a static template sent to the model and is not modelled.
- An unreadable file is not modelled. Only a missing file is skipped, by the existence check or the `FileNotFoundError` handler (main.py:74-84). A directory, a permission error or a file that is not valid UTF-8 raises in the source. The handler at main.py:83 catches only `FileNotFoundError`, the only other `try` wraps the `eval` (main.py:111-115) and `main` calls `run` without one (main.py:135), so the error ends the program. The file system map holds readable, already decoded text files only. The race where a file disappears between the existence check and `open` is collapsed into "absent".
- Text.Lower: maps only the ASCII letters A–Z. Python's `lower()` also maps non-ASCII letters. None of those lowercases to exactly one of the characters `e`, `x`, `i`, `t`, so the exit test is unaffected.
- Logging, environment variables, the Azure client, `nest_asyncio`, `asyncio.run`, `input` and `print` (main.py:7-37, 121-144) are I/O and runtime setup. `Console.Session` takes the typed lines as a finite sequence. It also reports the case where the input ends without an exit line. There, `input()` in the source would raise end-of-file.
- Console.Session: its promise that every line before the first exit line reaches the agent assumes `run` never raises. In the source a read error other than a missing file, a failing model call (main.py:64, 102) or a label that is not a string (`.strip()` at main.py:73) escapes `asyncio.run` (main.py:144) and ends the program, so no later line is read.
- The printing of each answer in the loop (main.py:136-138) is left out. `Console.Session` states which questions reach the agent, not what is printed.
