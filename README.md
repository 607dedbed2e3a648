# make-deb configuration renderer in Dafny

This project models `DebianConfiguration`, the class at the centre of make-deb. make-deb turns a
Python project into a Debian package description. When it is created, a configuration:

- runs `python setup.py --name --version --maintainer --maintainer-email --description`;
- pairs each printed line with its field name;
- asks the operator on the console for every field whose value is empty or `UNKNOWN`;
- reads the latest commit with `git log -1 --oneline`;
- layers all of this over the defaults (`compat = 9`) and the start-up time to form the template
  context.

`render` then:

- asks before replacing an existing `debian` directory;
- recreates the directory;
- writes `changelog`, `compat`, `control` and `rules` from their templates, in that order;
- writes `<name>.triggers` last, with a trailing newline.

There are two modules:

- `Strings` (`strings.dfy`): the Python string built-ins the class relies on, written out.
  These are `str.split`, `os.path.basename`, `str.replace(pat, "")` and ASCII `str.lower`.
- `MakeDeb` (`make_deb.dfy`): the constants, the field-completion loops, the context layering,
  the output naming, the overwrite confirmation and the class itself.

Everything the program takes from outside is passed in as a value:

- the text `setup.py` printed, as `SetupRun` (no `setup.py`, Python not launching, or its
  stdout);
- the outcome of running git, as `GitRun`;
- the clock reading, as an `int`;
- the console, as a sequence of answers, one per `input()` call. When the answers run out,
  `input()` raises `EOFError`, so that is the error result.
- what the console shows, as a sequence of `Message`s;
- the existing `debian` directory, as `Option<map<string, string>>`;
- the template engine, as a function of the template path and the context.

Each loop of the source is a method proved against a specification function:

- the per-field prompt loop is `CompleteField`, specified by `Complete`;
- the field loop is `ContextFromSetuppy`, specified by `SetupContext`/`FillFields`;
- the template loop is `WriteTemplates`, specified by `WriteAll`/`Renderings`.

Lemmas then state what those functions promise.

Points of this version of the code worth knowing:

- Only the triggers file is named after the package; no other output file depends on the
  context.
- Python failing to launch surfaces as `OSError`, not as a configuration error.
- An answer of `UNKNOWN` is rejected like an empty one, but without the notice.
- Fields missing from `setup.py`'s output (fewer than five lines) are left out of the context
  and never asked for. `render` then fails with `KeyError('name')` after the four template files
  are written, when the name is among the missing fields.

## Model

| member | source | states |
|---|---|---|
| Strings.Split | make_deb/__init__.py:65 | `str.split('\n')` gives one more piece than there are separators, and no piece holds a separator |
| Strings.JoinSplit | make_deb/__init__.py:65 | splitting loses nothing: joining the pieces with the separator gives back the text |
| Strings.SplitTerminated | make_deb/__init__.py:65 | text printed as lines each ending in the separator, followed by a tail, splits into exactly those lines and then the tail |
| Strings.Basename | make_deb/__init__.py:95 | definition: `os.path.basename`, the text after the last '/' |
| Strings.BasenameSuffix | make_deb/__init__.py:95 | `os.path.basename` gives a suffix of the path that holds no '/' and is the whole path or preceded by '/' |
| Strings.BasenameOfJoin | make_deb/__init__.py:95 | the basename of `dir/file` is `file` when `file` holds no '/' |
| Strings.RemoveAll | make_deb/__init__.py:95 | `replace(".j2", "")` never lengthens a name |
| Strings.RemoveAllKeeps | make_deb/__init__.py:95 | removing occurrences never introduces a character, so a basename keeps no '/' |
| Strings.RemoveAllAbsent | make_deb/__init__.py:95 | a name without `.j2` is left unchanged |
| Strings.RemoveTrailing | make_deb/__init__.py:95 | a trailing `.j2` is removed when its '.' does not occur before it |
| Strings.Lower | make_deb/__init__.py:87 | `lower()` keeps the length and lowers each ASCII capital, leaving every other character |
| Strings.CountAppend | make_deb/__init__.py:75-76 | proof helper, a general fact about sequences: occurrence counts add up over a concatenation (used to count the notices) |
| MakeDeb.UNKNOWN | make_deb/__init__.py:11-12 | the sentinel setuptools prints for a field that is not set |
| MakeDeb.SetupFields | make_deb/__init__.py:66-67 | the five field names, in the order setup.py is asked for them |
| MakeDeb.Templates | make_deb/__init__.py:25-30 | the four configured templates, in rendering order |
| MakeDeb.OutputFiles | make_deb/__init__.py:25-30 | the names the four configured templates are written under, in order |
| MakeDeb.TriggersTemplate | make_deb/__init__.py:104-105 | the template rendered into the triggers file |
| MakeDeb.DefaultContext | make_deb/__init__.py:32-34 | the class-level defaults: `compat` is 9 |
| MakeDeb.Text | make_deb/__init__.py:72-76 | the text of the field prompt and of the "Invalid value" notice |
| MakeDeb.PromptNamesField | make_deb/__init__.py:72-74 | the prompt names its field: two prompts are equal exactly when they are for the same field |
| MakeDeb.Acceptable | make_deb/__init__.py:71 | the loop condition negated: a value is kept when it is neither empty nor `UNKNOWN` |
| MakeDeb.FirstAcceptable | make_deb/__init__.py:71 | the index of the first entry that is neither empty nor `UNKNOWN`; every entry before it is one of those |
| MakeDeb.Complete | make_deb/__init__.py:71-78 | the prompt loop of one field ends with an acceptable value, having read no more answers than exist; its only failure is `EOFError` |
| MakeDeb.CompleteIsFirstAcceptable | make_deb/__init__.py:71-74 | the loop stores the first acceptable entry of `[value] + answers`, reading every answer before it, and fails exactly when there is none; an acceptable value is kept with no answer read |
| MakeDeb.TranscriptCounts | make_deb/__init__.py:72-76 | one prompt is shown per answer read, and the "Invalid value" notice once per empty answer, so `UNKNOWN` is re-prompted silently |
| MakeDeb.Transcript | make_deb/__init__.py:72-76 | what the console shows while one field's loop reads its answers: a prompt per answer, the notice after each empty one |
| MakeDeb.TranscriptOther | make_deb/__init__.py:72-74 | one field's loop never shows the prompt of another field |
| MakeDeb.PromptsAppend | make_deb/__init__.py:72-74 | proof helper, a general fact about sequences: prompt counts add up over a concatenation (used to count the prompts) |
| MakeDeb.TranscriptPrompts | make_deb/__init__.py:72-74 | one field's loop shows one prompt, of any field, per answer it reads |
| MakeDeb.CompleteReadsNone | make_deb/__init__.py:71-74 | the prompt loop reads no answer exactly when the printed value is acceptable |
| MakeDeb.CompleteField | make_deb/__init__.py:71-76 | the `while` loop computes `Complete`; the console shows the transcript of the answers read, plus the last prompt when input runs out |
| MakeDeb.SetupLines | make_deb/__init__.py:65 | the values are the printed lines, one per '\n'; none holds a '\n' |
| MakeDeb.SetupLinesTerminated | make_deb/__init__.py:65 | values printed one per line are read back exactly |
| MakeDeb.Paired | make_deb/__init__.py:70 | `zip` pairs min(5, number of values) fields |
| MakeDeb.FillOne | make_deb/__init__.py:70-78 | one pass of the field loop reads answers only after those already read and no more than exist |
| MakeDeb.FillOneShape | make_deb/__init__.py:70-78 | one pass fails only with `EOFError`; otherwise it adds its field with an acceptable value and keeps every other field |
| MakeDeb.FillFields | make_deb/__init__.py:69-80 | the field loop never reads more answers than exist |
| MakeDeb.SetupContext | make_deb/__init__.py:56-80 | what `_context_from_setuppy` returns: the missing-setup.py error, `OSError`, or the field loop over the paired printed values |
| MakeDeb.FillFieldsErrStays | make_deb/__init__.py:70-78 | once a field fails, the exception ends the loop and later fields are never reached |
| MakeDeb.FillNext | make_deb/__init__.py:71-78 | one pass of the field loop, run through the prompt loop, computes `FillOne` |
| MakeDeb.ContextFromSetuppy | make_deb/__init__.py:56-80 | `_context_from_setuppy` fails for a missing `setup.py` or Python, and otherwise runs the field loop over the paired values |
| MakeDeb.FillFieldsFailsOnlyAtEof | make_deb/__init__.py:71-74 | the field loop fails only when the console runs out |
| MakeDeb.FillFieldsKeys | make_deb/__init__.py:69-78 | the context holds exactly the first `k` field names, each with an acceptable value |
| MakeDeb.FillOneNotices | make_deb/__init__.py:75-76 | one pass shows the notice once per empty answer it reads |
| MakeDeb.FillFieldsNoticesStep | make_deb/__init__.py:70-76 | each field's pass adds one notice per empty answer it reads |
| MakeDeb.FillFieldsNotices | make_deb/__init__.py:70-76 | over the whole loop, the notice is shown exactly once per empty answer read |
| MakeDeb.FillOnePrinted | make_deb/__init__.py:70-78 | one pass reads as many answers as its prompt loop and appends that loop's transcript to the console |
| MakeDeb.FillFieldsPrintedStep | make_deb/__init__.py:70-78 | the `k`-th field's pass reads the answers after those the earlier fields read, as many as its prompt loop reads, and appends its transcript |
| MakeDeb.FillFieldsPromptTotal | make_deb/__init__.py:70-74 | over the whole field loop, exactly one prompt is shown per answer read |
| MakeDeb.FillFieldsPrompts | make_deb/__init__.py:70-74 | for distinct names, a paired field is prompted for exactly when its printed value is empty or `UNKNOWN`, and a field beyond the pairing never is |
| MakeDeb.SetupContextPrompts | make_deb/__init__.py:65-74 | `_context_from_setuppy` prompts for a field exactly when setup.py printed a line for it and that line is empty or `UNKNOWN` |
| MakeDeb.SetupFieldsDistinct | make_deb/__init__.py:66-67 | the five field names are distinct |
| MakeDeb.FillFieldsAt | make_deb/__init__.py:70-78 | the value stored for the i-th field is the prompt loop's outcome for the i-th printed value, on the answers left by the fields before it |
| MakeDeb.FillFieldsNoPrompt | make_deb/__init__.py:71-78 | when every paired value is acceptable, the values are stored unchanged, no answer is read and nothing is shown |
| MakeDeb.SetupContextShape | make_deb/__init__.py:56-80 | missing `setup.py` raises "Failed to find setup.py"; Python missing raises `OSError`; otherwise failure is only `EOFError`. The keys are the first min(5, line count) field names and every value is acceptable. |
| MakeDeb.SetupContextComplete | make_deb/__init__.py:60-78 | a `setup.py` printing all five acceptable values, one per line, yields exactly those values with no prompt |
| MakeDeb.ReservedKeys | make_deb/__init__.py:39-41 | no setup.py field shares a key with `date`, `compat` or `latest_git_commit` |
| MakeDeb.ContextFromGit | make_deb/__init__.py:43-54 | definition: the git output when git ran, otherwise the configuration error "Please install git" or "Unknown error occurred when invoking git: " followed by the failure |
| MakeDeb.Merge | make_deb/__init__.py:38-41 | successive `dict.update` calls on a fresh copy: each layer overrides the ones before it |
| MakeDeb.InitLayers | make_deb/__init__.py:38-41 | the layers `__init__` applies, in order: defaults, `date`, the setup.py fields, `latest_git_commit` |
| MakeDeb.MergeKeys | make_deb/__init__.py:38-41 | after successive `update` calls, a key is present exactly when some layer has it |
| MakeDeb.MergeLast | make_deb/__init__.py:38-41 | after successive `update` calls, a key holds the value of the last layer that has it |
| MakeDeb.MergeFour | make_deb/__init__.py:38-41 | four updates of a fresh copy are the four layers in order |
| MakeDeb.Lift | make_deb/__init__.py:40 | definition: the setup.py fields as context entries under their own names, as strings |
| MakeDeb.InitContextPrecedence | make_deb/__init__.py:32-41 | the context keys are `compat`, `date`, `latest_git_commit` and the fields. `latest_git_commit` is the commit. `compat` is 9 and `date` is the clock unless a field overrides them. Every field other than `latest_git_commit` keeps its value. |
| MakeDeb.OutputName | make_deb/__init__.py:95 | an output name never holds '/' |
| MakeDeb.OutputNameOfTemplate | make_deb/__init__.py:95 | the template `resources/debian/<file>.j2` is written under `<file>` |
| MakeDeb.ConfiguredOutputName | make_deb/__init__.py:25-30 | each configured template is written under its file name without `.j2` |
| MakeDeb.OutputNames | make_deb/__init__.py:94-95 | definition: the output name of each template, in template order |
| MakeDeb.ConfiguredOutputNames | make_deb/__init__.py:25-30 | the configured templates are written under changelog, compat, control and rules, in that order |
| MakeDeb.TriggersName | make_deb/__init__.py:109 | the triggers file is named `<name>.triggers` |
| MakeDeb.Renderings | make_deb/__init__.py:96-98 | definition: each template rendered against the same context, in template order |
| MakeDeb.WriteAll | make_deb/__init__.py:94-101 | the directory after each content is written under its name, in order, into an empty one |
| MakeDeb.WriteAllFiles | make_deb/__init__.py:100-101 | writing under distinct names into an empty directory leaves exactly those files, each with its own content |
| MakeDeb.WriteTemplates | make_deb/__init__.py:94-101 | the template loop writes each rendering under its output name, in template order, into the new directory |
| MakeDeb.RenderedFiles | make_deb/__init__.py:94-111 | a complete render leaves exactly changelog, compat, control, rules and `<name>.triggers`. Each template's file holds its rendering; only the triggers file gets the extra newline. |
| MakeDeb.Rendered | make_deb/__init__.py:94-111 | the directory after a complete render: the four template files, then the triggers rendering plus "\n" under `<name>.triggers` |
| MakeDeb.Declines | make_deb/__init__.py:87 | the confirmation declines when the lowered answer is "n" or "no" |
| MakeDeb.DeclinesExactly | make_deb/__init__.py:87 | the confirmation declines exactly for "n" and "no" in any case; every other answer, the empty one included, accepts |
| MakeDeb.Replaces | make_deb/__init__.py:85-90 | the directory is (re)created when it did not exist or the first answer does not decline |
| MakeDeb.DebianConfiguration.Valid | make_deb/__init__.py:38-41 | `compat`, `date` and `latest_git_commit` are present; every setup.py field present is an acceptable string (setup.py fields, `name` included, may be absent) |
| MakeDeb.DebianConfiguration.constructor | make_deb/__init__.py:36-41 | the context is a copy of the defaults updated with `date`, the fields and `latest_git_commit`, in order; `compat`, `date` and `latest_git_commit` are present, and every setup.py field that is present holds an acceptable string |
| MakeDeb.DebianConfiguration.Create | make_deb/__init__.py:36-54 | a setup.py failure is raised first and git is not consulted. After a successful field loop, a missing git raises "Please install git" and a failed git the unknown-error message with its reason; otherwise a fresh configuration carries the layered context. Whenever the field loop succeeds, the answers read and the messages shown are the loop's, also when git then fails |
| MakeDeb.DebianConfiguration.Render | make_deb/__init__.py:82-111 | an existing directory with no answer left raises `EOFError`; a declining answer raises "Not removing debian directory" and leaves the directory untouched; otherwise the directory is recreated with the four template files in order and then `<name>.triggers`, or, without a `name` in the context, `KeyError('name')` after the four files |

## Left out

- Running `setup.py` and git through `subprocess.Popen`: their outcomes are inputs, and so is
  the UTF-8 decoding of what they print. A decoding failure of git's output is one more
  `GitFailed` reason. A decoding failure of setup.py's output is not modelled.
- The Jinja2 engine and `pkg_resources.resource_string`: the template engine is a function
  parameter applied to the template path and the context. What the templates contain is not
  modelled.
- The filesystem:
  - `os.path.join` with the root directory, `os.path.exists`, `shutil.rmtree`, `os.mkdir`;
  - `codecs.open` versus `open` and their encodings;
  - I/O errors while writing.

  The directory is a map from file name to content. A replaced directory starts empty.
- `datetime.datetime.now()`: the clock reading is an integer parameter.
- The prompt texts are modelled only as `Message` values (`Text` spells them out). The
  confirmation prompt is not recorded.
- `str.lower()` beyond ASCII: `Strings.Lower` folds only `A`–`Z`.
- `DEFAULT_CONTEXT` is a constant map. The class attribute is never mutated because Dafny maps
  are values, so the model cannot express the aliasing the source avoids by calling `copy()`.
- MakeDeb.DebianConfiguration.Create: when the field loop fails with `EOFError`, the method
  returns no answer count and no messages (0 and nothing shown). In the source, every answer was
  read and the prompts and notices were shown before the exception, but the model's error result
  does not carry them.
- MakeDeb.DebianConfiguration.Render: the triggers file is a key `<name>.triggers` of the
  flat directory map. The source joins it onto the directory path, so a package name holding
  '/' would write outside `debian`, write an absolute path, or fail to open after the four
  template files are written. The model does not capture the path the name resolves to, and
  `RenderedFiles` describes the directory only as that map.
- MakeDeb.FillNext: when the console runs out, the result is only `EOFError`. What the console
  showed before the exception is not returned, because the source returns nothing in that
  case. `CompleteField` still states that transcript.
- `Value`: context values are strings, integers (`compat`) and a clock reading (`date`), not
  arbitrary Python objects.
- `setup.py` itself: it holds only packaging metadata for make-deb.
