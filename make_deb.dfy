/**
 * A model of the `DebianConfiguration` class of make-deb: it reads a Python
 * project's packaging metadata from `setup.py` and the latest git commit,
 * merges them into a template context, and renders the Debian configuration
 * files (changelog, compat, control, rules and `<name>.triggers`) into the
 * project's `debian` directory.
 *
 * Everything the program takes from outside is a parameter here: the text
 * `setup.py` prints, the outcome of running git, the clock reading, the
 * operator's console answers (consumed from the front, one per `input()`
 * call), the contents of an existing `debian` directory, and the template
 * engine (a function of the template path and the context).
 */
module MakeDeb {
  import opened Strings

  // ---------------------------------------------------------------------------
  // Constants and data
  // ---------------------------------------------------------------------------

  /** The string setuptools prints for a field that is not set. */
  const UNKNOWN: string := "UNKNOWN"

  /** The fields asked of `setup.py`, in the order it prints them. */
  const SetupFields: seq<string> := ["name", "version", "maintainer", "maintainer_email", "description"]

  /** The templates rendered under their own names, in rendering order:
      `resources/debian/changelog.j2`, `.../compat.j2`, `.../control.j2`,
      `.../rules.j2`. */
  const Templates: seq<string> := [
    TemplatePath("changelog"),
    TemplatePath("compat"),
    TemplatePath("control"),
    TemplatePath("rules")
  ]

  /** The resource path of the template for `file`. */
  function TemplatePath(file: string): string
  {
    "resources/debian/" + file + ".j2"
  }

  /** The names the configured templates are written under, in order. */
  const OutputFiles: seq<string> := ["changelog", "compat", "control", "rules"]

  /** The template whose output is named after the package. */
  const TriggersTemplate: string := "resources/debian/triggers.j2"

  /** A context value: setup.py fields and the commit are text, `compat` a
      number, `date` the clock reading at start-up. */
  datatype Value = Str(s: string) | Num(n: int) | Time(stamp: int)

  type Context = map<string, Value>

  /** The class-level defaults every context starts from. */
  const DefaultContext: Context := map["compat" := Num(9)]

  /** The ways a run ends early: `DebianConfigurationException` with its
      message, `OSError` when Python cannot be launched, `EOFError` when the
      console has no more answers, `KeyError` for a missing context key. */
  datatype Error =
    | ConfigurationError(message: string)
    | OSError
    | EOFError
    | KeyError(key: string)

  datatype Result<T> = Ok(value: T) | Err(error: Error)

  datatype Option<T> = None | Some(value: T)

  /** What running `python setup.py --name --version ...` gives. */
  datatype SetupRun = NoSetupPy | PythonMissing | SetupRan(stdout: string)

  /** What running `git log -1 --oneline` gives: git is not installed, running
      it failed with the given message, or it printed `stdout`. */
  datatype GitRun = GitMissing | GitFailed(reason: string) | GitRan(stdout: string)

  // ---------------------------------------------------------------------------
  // Completing one setup.py field from the console
  // ---------------------------------------------------------------------------

  /** What the console shows: the prompt for a missing field, and the notice
      printed after an empty answer. */
  datatype Message = MissingField(name: string) | InvalidValue

  /** The text of each message. */
  function Text(m: Message): string
  {
    match m
    case MissingField(name) =>
      "The '" + name + "' parameter is not defined in setup.py. Please define it for debian configuration: "
    case InvalidValue => "Invalid value. Please try again"
  }

  /** Each prompt names its field, so prompts for different fields differ. */
  lemma PromptNamesField(a: string, b: string)
    ensures Text(MissingField(a)) == Text(MissingField(b)) <==> a == b
  {
    var s := "' parameter is not defined in setup.py. Please define it for debian configuration: ";
    var ta := Text(MissingField(a));
    var tb := Text(MissingField(b));
    assert ta == "The '" + a + s;
    assert tb == "The '" + b + s;
    if ta == tb {
      assert |a| == |b|;
      assert ta[5..5 + |a|] == a;
      assert tb[5..5 + |b|] == b;
    }
  }

  /** A field value that needs no prompting: neither empty nor the sentinel. */
  predicate Acceptable(v: string)
  {
    v != "" && v != UNKNOWN
  }

  /** The index of the first acceptable entry of `xs`, or `|xs|` if there is none. */
  function FirstAcceptable(xs: seq<string>): (r: nat)
    ensures r <= |xs|
    ensures forall i :: 0 <= i < r ==> !Acceptable(xs[i])
    ensures r < |xs| ==> Acceptable(xs[r])
    decreases |xs|
  {
    if xs == [] then 0
    else if Acceptable(xs[0]) then 0
    else 1 + FirstAcceptable(xs[1..])
  }

  /** A completed field: its value and how many console answers were read. */
  datatype Completed = Completed(value: string, consumed: nat)

  /** The outcome of the prompt loop for a field whose setup.py value is
      `value`: the value itself when it is acceptable, otherwise the outcome
      for the next answer read from the console; `EOFError` when the answers
      run out first. `consumed` counts the answers read. */
  function Complete(value: string, answers: seq<string>): (r: Result<Completed>)
    ensures r.Ok? ==> r.value.consumed <= |answers| && Acceptable(r.value.value)
    ensures r.Err? ==> r.error == EOFError
    decreases |answers|
  {
    if Acceptable(value) then Ok(Completed(value, 0))
    else if answers == [] then Err(EOFError)
    else
      match Complete(answers[0], answers[1..])
      case Err(e) => Err(e)
      case Ok(c) => Ok(Completed(c.value, c.consumed + 1))
  }

  /** The loop ends with the first acceptable entry of `[value] + answers`,
      having read every answer before it, and fails exactly when there is none. */
  lemma {:induction false} CompleteIsFirstAcceptable(value: string, answers: seq<string>)
    ensures var candidates := [value] + answers;
      var j := FirstAcceptable(candidates);
      Complete(value, answers) == if j < |candidates| then Ok(Completed(candidates[j], j)) else Err(EOFError)
    decreases |answers|
  {
    var candidates := [value] + answers;
    if !Acceptable(value) {
      assert candidates[1..] == answers;
      if answers != [] {
        CompleteIsFirstAcceptable(answers[0], answers[1..]);
        assert [answers[0]] + answers[1..] == answers;
      }
    }
  }

  /** What the console shows while the loop for field `name` reads the answers
      `read`: one prompt per answer, and the notice after each empty one. */
  function Transcript(name: string, read: seq<string>): seq<Message>
    decreases |read|
  {
    if read == [] then []
    else
      Transcript(name, read[..|read| - 1]) + [MissingField(name)]
      + (if read[|read| - 1] == "" then [InvalidValue] else [])
  }

  /** One prompt per answer read; the notice exactly as often as an empty
      answer was read, so an `UNKNOWN` answer is re-prompted silently.
      Since prompts for different fields have different texts
      (`PromptNamesField`), counting `MissingField(name)` counts the times
      that field's prompt text was shown. */
  lemma {:induction false} TranscriptCounts(name: string, read: seq<string>)
    ensures Count(Transcript(name, read), MissingField(name)) == |read|
    ensures Count(Transcript(name, read), InvalidValue) == Count(read, "")
    decreases |read|
  {
    if read != [] {
      var front := read[..|read| - 1];
      var last := read[|read| - 1];
      var notice: seq<Message> := if last == "" then [InvalidValue] else [];
      TranscriptCounts(name, front);
      CountAppend(Transcript(name, front), [MissingField(name)], MissingField(name));
      CountAppend(Transcript(name, front), [MissingField(name)], InvalidValue);
      CountAppend(Transcript(name, front) + [MissingField(name)], notice, MissingField(name));
      CountAppend(Transcript(name, front) + [MissingField(name)], notice, InvalidValue);
      assert read == front + [last];
      CountAppend(front, [last], "");
    }
  }

  /** The loop for one field never shows the prompt of another. */
  lemma {:induction false} TranscriptOther(name: string, other: string, read: seq<string>)
    requires other != name
    ensures Count(Transcript(name, read), MissingField(other)) == 0
    decreases |read|
  {
    if read != [] {
      var front := read[..|read| - 1];
      var notice: seq<Message> := if read[|read| - 1] == "" then [InvalidValue] else [];
      TranscriptOther(name, other, front);
      CountAppend(Transcript(name, front), [MissingField(name)], MissingField(other));
      CountAppend(Transcript(name, front) + [MissingField(name)], notice, MissingField(other));
    }
  }

  /** The number of prompts, for any field, among `ms`. */
  function Prompts(ms: seq<Message>): nat
    decreases |ms|
  {
    if ms == [] then 0 else (if ms[0].MissingField? then 1 else 0) + Prompts(ms[1..])
  }

  /** Prompts in a concatenation add up. */
  lemma {:induction false} PromptsAppend(a: seq<Message>, b: seq<Message>)
    ensures Prompts(a + b) == Prompts(a) + Prompts(b)
    decreases |a|
  {
    if a == [] {
      assert a + b == b;
    } else {
      assert (a + b)[1..] == a[1..] + b;
      PromptsAppend(a[1..], b);
    }
  }

  /** The loop for one field shows one prompt per answer it reads. */
  lemma {:induction false} TranscriptPrompts(name: string, read: seq<string>)
    ensures Prompts(Transcript(name, read)) == |read|
    decreases |read|
  {
    if read != [] {
      var front := read[..|read| - 1];
      var notice: seq<Message> := if read[|read| - 1] == "" then [InvalidValue] else [];
      TranscriptPrompts(name, front);
      PromptsAppend(Transcript(name, front), [MissingField(name)]);
      PromptsAppend(Transcript(name, front) + [MissingField(name)], notice);
    }
  }

  /** The prompt loop of one field (`while not value or value == UNKNOWN`):
      it ends with the first acceptable entry of `[value] + answers`; the
      console shows a prompt per answer read and a notice per empty one, and
      one last prompt when the answers run out. */
  method CompleteField(name: string, value: string, answers: seq<string>)
    returns (r: Result<Completed>, printed: seq<Message>)
    ensures r == Complete(value, answers)
    ensures r.Ok? ==> printed == Transcript(name, answers[..r.value.consumed])
    ensures r.Err? ==> printed == Transcript(name, answers) + [MissingField(name)]
  {
    var v := value;
    var i := 0;
    printed := [];
    while !Acceptable(v)
      invariant i <= |answers|
      invariant v == ([value] + answers)[i]
      invariant forall k :: 0 <= k < i ==> !Acceptable(([value] + answers)[k])
      invariant printed == Transcript(name, answers[..i])
      decreases |answers| - i
    {
      printed := printed + [MissingField(name)];
      if i == |answers| {
        assert answers[..i] == answers;
        CompleteIsFirstAcceptable(value, answers);
        return Err(EOFError), printed;
      }
      v := answers[i];
      i := i + 1;
      assert answers[..i][..i - 1] == answers[..i - 1];
      if v == "" {
        printed := printed + [InvalidValue];
      }
    }
    CompleteIsFirstAcceptable(value, answers);
    r := Ok(Completed(v, i));
  }

  // ---------------------------------------------------------------------------
  // Reading setup.py
  // ---------------------------------------------------------------------------

  /** The values setup.py printed: its output split at '\n' with the last
      piece dropped, i.e. one value per terminated line. */
  function SetupLines(stdout: string): (r: seq<string>)
    ensures |r| == Count(stdout, '\n')
    ensures forall i :: 0 <= i < |r| ==> '\n' !in r[i]
  {
    var pieces := Split(stdout, '\n');
    pieces[..|pieces| - 1]
  }

  /** The fields gathered so far, how many console answers were read, and
      what the console has shown. */
  datatype Filled = Filled(fields: map<string, string>, consumed: nat, printed: seq<Message>)

  /** One pass of the field loop: field `name`, printed as `value`, completed
      from the answers after the `f.consumed` already read, and added to what
      `f` gathered. */
  function FillOne(f: Filled, answers: seq<string>, name: string, value: string): (r: Result<Filled>)
    requires f.consumed <= |answers|
    ensures r.Ok? ==> f.consumed <= r.value.consumed <= |answers|
  {
    var rest := answers[f.consumed..];
    match Complete(value, rest)
    case Err(e) => Err(e)
    case Ok(c) =>
      Ok(Filled(f.fields[name := c.value], f.consumed + c.consumed, f.printed + Transcript(name, rest[..c.consumed])))
  }

  /** A pass fails only when the console runs out; otherwise it adds `name`
      with an acceptable value and keeps every other field as it was. */
  lemma FillOneShape(f: Filled, answers: seq<string>, name: string, value: string)
    requires f.consumed <= |answers|
    ensures var r := FillOne(f, answers, name, value);
      && (r.Err? ==> r.error == EOFError)
      && (r.Ok? ==> r.value.fields.Keys == f.fields.Keys + {name})
      && (r.Ok? ==> forall key :: key in f.fields && key != name ==> r.value.fields[key] == f.fields[key])
      && (r.Ok? ==> Acceptable(r.value.fields[name]))
  {
  }

  /** The first `k` of the field `names` paired with the first `k` values and
      completed in order, each from the answers the previous ones left. */
  function FillFields(names: seq<string>, values: seq<string>, answers: seq<string>, k: nat): (r: Result<Filled>)
    requires k <= |values| && k <= |names|
    ensures r.Ok? ==> r.value.consumed <= |answers|
    decreases k
  {
    if k == 0 then Ok(Filled(map[], 0, []))
    else
      var prev := FillFields(names, values, answers, k - 1);
      if prev.Err? then prev else FillOne(prev.value, answers, names[k - 1], values[k - 1])
  }

  /** The number of fields `zip` pairs with the printed values. */
  function Paired(values: seq<string>): (n: nat)
    ensures n <= |values| && n <= |SetupFields|
    ensures n == |values| || n == |SetupFields|
  {
    if |values| < |SetupFields| then |values| else |SetupFields|
  }

  /** What `_context_from_setuppy` returns. */
  function SetupContext(run: SetupRun, answers: seq<string>): Result<Filled>
  {
    match run
    case NoSetupPy => Err(ConfigurationError("Failed to find setup.py"))
    case PythonMissing => Err(OSError)
    case SetupRan(stdout) =>
      var values := SetupLines(stdout);
      FillFields(SetupFields, values, answers, Paired(values))
  }

  /** Once a field fails, the later ones are never reached. */
  lemma {:induction false} FillFieldsErrStays(names: seq<string>, values: seq<string>, answers: seq<string>, i: nat, k: nat)
    requires i <= k <= |values| && k <= |names|
    requires FillFields(names, values, answers, i).Err?
    ensures FillFields(names, values, answers, k) == FillFields(names, values, answers, i)
    decreases k
  {
    if k > i {
      FillFieldsErrStays(names, values, answers, i, k - 1);
    }
  }

  /** Filling one more field is one pass of the loop. */
  lemma FillFieldsStep(names: seq<string>, values: seq<string>, answers: seq<string>, i: nat)
    requires i < |values| && i < |names|
    requires FillFields(names, values, answers, i).Ok?
    ensures FillFields(names, values, answers, i).value.consumed <= |answers|
    ensures FillFields(names, values, answers, i + 1)
         == FillOne(FillFields(names, values, answers, i).value, answers, names[i], values[i])
  {
  }

  /** One pass of the field loop of `_context_from_setuppy`, run against the
      answers after the first `f.consumed`. */
  method FillNext(f: Filled, answers: seq<string>, name: string, value: string) returns (r: Result<Filled>)
    requires f.consumed <= |answers|
    ensures r == FillOne(f, answers, name, value)
  {
    var rest := answers[f.consumed..];
    var c, shown := CompleteField(name, value, rest);
    if c.Err? {
      return Err(c.error);
    }
    r := Ok(Filled(f.fields[name := c.value.value], f.consumed + c.value.consumed, f.printed + shown));
  }

  /** `_context_from_setuppy`: pair the printed values with the field names and
      prompt for each one that is empty or `UNKNOWN`. */
  method ContextFromSetuppy(run: SetupRun, answers: seq<string>) returns (r: Result<Filled>)
    ensures r == SetupContext(run, answers)
  {
    if run.NoSetupPy? {
      return Err(ConfigurationError("Failed to find setup.py"));
    }
    if run.PythonMissing? {
      return Err(OSError);
    }
    var values := SetupLines(run.stdout);
    var n := Paired(values);
    var fields: map<string, string> := map[];
    var consumed: nat := 0;
    var printed: seq<Message> := [];
    for i := 0 to n
      invariant FillFields(SetupFields, values, answers, i) == Ok(Filled(fields, consumed, printed))
    {
      FillFieldsStep(SetupFields, values, answers, i);
      var step := FillNext(Filled(fields, consumed, printed), answers, SetupFields[i], values[i]);
      if step.Err? {
        FillFieldsErrStays(SetupFields, values, answers, i + 1, n);
        return Err(step.error);
      }
      fields, consumed, printed := step.value.fields, step.value.consumed, step.value.printed;
    }
    r := Ok(Filled(fields, consumed, printed));
  }

  /** The only way filling fails is the console running out of answers. */
  lemma {:induction false} FillFieldsFailsOnlyAtEof(names: seq<string>, values: seq<string>, answers: seq<string>, k: nat)
    requires k <= |values| && k <= |names|
    ensures FillFields(names, values, answers, k).Err? ==> FillFields(names, values, answers, k).error == EOFError
    decreases k
  {
    if k > 0 {
      FillFieldsFailsOnlyAtEof(names, values, answers, k - 1);
      var prev := FillFields(names, values, answers, k - 1);
      if prev.Ok? {
        FillOneShape(prev.value, answers, names[k - 1], values[k - 1]);
      }
    }
  }

  /** The gathered fields are exactly the first `k` names, each with an
      acceptable value. */
  lemma {:induction false} FillFieldsKeys(names: seq<string>, values: seq<string>, answers: seq<string>, k: nat)
    requires k <= |values| && k <= |names|
    requires FillFields(names, values, answers, k).Ok?
    ensures forall name :: name in FillFields(names, values, answers, k).value.fields <==> name in names[..k]
    ensures forall name :: name in FillFields(names, values, answers, k).value.fields ==>
      Acceptable(FillFields(names, values, answers, k).value.fields[name])
    decreases k
  {
    if k > 0 {
      assert FillFields(names, values, answers, k - 1).Ok?;
      var f := FillFields(names, values, answers, k - 1).value;
      FillOneShape(f, answers, names[k - 1], values[k - 1]);
      FillFieldsKeys(names, values, answers, k - 1);
      assert names[..k] == names[..k - 1] + [names[k - 1]];
    }
  }

  /** The notice was shown once per empty answer read. */
  lemma {:induction false} FillFieldsNotices(names: seq<string>, values: seq<string>, answers: seq<string>, k: nat)
    requires k <= |values| && k <= |names|
    requires FillFields(names, values, answers, k).Ok?
    ensures var f := FillFields(names, values, answers, k).value;
      Count(f.printed, InvalidValue) == Count(answers[..f.consumed], "")
    decreases k
  {
    if k > 0 {
      FillFieldsNoticesStep(names, values, answers, k);
      FillFieldsNotices(names, values, answers, k - 1);
      var before := FillFields(names, values, answers, k - 1).value.consumed;
      CountPrefix(answers, before, FillFields(names, values, answers, k).value.consumed, "");
    }
  }

  /** The `k`-th field's pass adds one notice per empty answer it reads. */
  lemma FillFieldsNoticesStep(names: seq<string>, values: seq<string>, answers: seq<string>, k: nat)
    requires 0 < k <= |values| && k <= |names|
    requires FillFields(names, values, answers, k).Ok?
    ensures FillFields(names, values, answers, k - 1).Ok?
    ensures var f := FillFields(names, values, answers, k - 1).value;
      var g := FillFields(names, values, answers, k).value;
      && f.consumed <= g.consumed <= |answers|
      && Count(g.printed, InvalidValue) == Count(f.printed, InvalidValue) + Count(answers[f.consumed..g.consumed], "")
  {
    var f := FillFields(names, values, answers, k - 1).value;
    FillFieldsStep(names, values, answers, k - 1);
    FillOneNotices(f, answers, names[k - 1], values[k - 1]);
  }

  /** One pass shows the notice once per empty answer it reads. */
  lemma FillOneNotices(f: Filled, answers: seq<string>, name: string, value: string)
    requires f.consumed <= |answers|
    requires FillOne(f, answers, name, value).Ok?
    ensures var g := FillOne(f, answers, name, value).value;
      Count(g.printed, InvalidValue) == Count(f.printed, InvalidValue) + Count(answers[f.consumed..g.consumed], "")
  {
    var rest := answers[f.consumed..];
    var used := Complete(value, rest).value.consumed;
    var shown := Transcript(name, rest[..used]);
    TranscriptCounts(name, rest[..used]);
    CountAppend(f.printed, shown, InvalidValue);
    assert answers[f.consumed..f.consumed + used] == rest[..used];
  }

  /** The `k`-th field's pass appends the transcript of the answers it reads,
      which are as many as its prompt loop reads. */
  lemma FillFieldsPrintedStep(names: seq<string>, values: seq<string>, answers: seq<string>, k: nat)
    requires 0 < k <= |values| && k <= |names|
    requires FillFields(names, values, answers, k).Ok?
    ensures FillFields(names, values, answers, k - 1).Ok?
    ensures var f := FillFields(names, values, answers, k - 1).value;
      var g := FillFields(names, values, answers, k).value;
      && f.consumed <= g.consumed <= |answers|
      && Complete(values[k - 1], answers[f.consumed..]).Ok?
      && g.consumed - f.consumed == Complete(values[k - 1], answers[f.consumed..]).value.consumed
      && g.printed == f.printed + Transcript(names[k - 1], answers[f.consumed..g.consumed])
  {
    var f := FillFields(names, values, answers, k - 1).value;
    FillFieldsStep(names, values, answers, k - 1);
    FillOnePrinted(f, answers, names[k - 1], values[k - 1]);
  }

  /** One pass reads what the prompt loop reads and shows its transcript. */
  lemma FillOnePrinted(f: Filled, answers: seq<string>, name: string, value: string)
    requires f.consumed <= |answers|
    requires FillOne(f, answers, name, value).Ok?
    ensures Complete(value, answers[f.consumed..]).Ok?
    ensures var g := FillOne(f, answers, name, value).value;
      && g.consumed == f.consumed + Complete(value, answers[f.consumed..]).value.consumed
      && g.printed == f.printed + Transcript(name, answers[f.consumed..g.consumed])
  {
    var rest := answers[f.consumed..];
    var used := Complete(value, rest).value.consumed;
    assert answers[f.consumed..f.consumed + used] == rest[..used];
  }

  /** The prompt loop reads no answer exactly when the value is acceptable. */
  lemma CompleteReadsNone(value: string, answers: seq<string>)
    requires Complete(value, answers).Ok?
    ensures Complete(value, answers).value.consumed == 0 <==> Acceptable(value)
  {
  }

  /** Over the whole field loop, one prompt is shown per answer read. */
  lemma {:induction false} FillFieldsPromptTotal(names: seq<string>, values: seq<string>, answers: seq<string>, k: nat)
    requires k <= |values| && k <= |names|
    requires FillFields(names, values, answers, k).Ok?
    ensures Prompts(FillFields(names, values, answers, k).value.printed) == FillFields(names, values, answers, k).value.consumed
    decreases k
  {
    if k > 0 {
      FillFieldsPrintedStep(names, values, answers, k);
      FillFieldsPromptTotal(names, values, answers, k - 1);
      var f := FillFields(names, values, answers, k - 1).value;
      var g := FillFields(names, values, answers, k).value;
      var read := answers[f.consumed..g.consumed];
      PromptsAppend(f.printed, Transcript(names[k - 1], read));
      TranscriptPrompts(names[k - 1], read);
    }
  }

  /** Exactly the paired fields whose printed value is empty or `UNKNOWN` are
      prompted for; the fields beyond the pairing never are. */
  lemma {:induction false} FillFieldsPrompts(names: seq<string>, values: seq<string>, answers: seq<string>, k: nat, i: nat)
    requires k <= |values| && k <= |names| && i < |names|
    requires Distinct(names)
    requires FillFields(names, values, answers, k).Ok?
    ensures i < k ==>
      (Count(FillFields(names, values, answers, k).value.printed, MissingField(names[i])) == 0 <==> Acceptable(values[i]))
    ensures k <= i ==> Count(FillFields(names, values, answers, k).value.printed, MissingField(names[i])) == 0
    decreases k
  {
    if k > 0 {
      FillFieldsPrintedStep(names, values, answers, k);
      FillFieldsPrompts(names, values, answers, k - 1, i);
      var f := FillFields(names, values, answers, k - 1).value;
      var g := FillFields(names, values, answers, k).value;
      var read := answers[f.consumed..g.consumed];
      CountAppend(f.printed, Transcript(names[k - 1], read), MissingField(names[i]));
      if i == k - 1 {
        TranscriptCounts(names[i], read);
        CompleteReadsNone(values[i], answers[f.consumed..]);
      } else {
        TranscriptOther(names[k - 1], names[i], read);
      }
    }
  }

  /** No name occurs twice. */
  predicate Distinct(names: seq<string>)
  {
    forall i, j :: 0 <= i < j < |names| ==> names[i] != names[j]
  }

  /** The five field names are distinct. */
  lemma SetupFieldsDistinct()
    ensures Distinct(SetupFields)
  {
  }

  /** The value stored for the `i`-th field is what the prompt loop made of the
      `i`-th printed value, reading from the answers left by the fields before
      it; in particular an acceptable printed value is kept as it is. */
  lemma {:induction false} FillFieldsAt(names: seq<string>, values: seq<string>, answers: seq<string>, k: nat, i: nat)
    requires i < k <= |values| && k <= |names|
    requires Distinct(names)
    requires FillFields(names, values, answers, k).Ok?
    ensures FillFields(names, values, answers, i).Ok?
    ensures var before := FillFields(names, values, answers, i).value.consumed;
      && Complete(values[i], answers[before..]).Ok?
      && FillFields(names, values, answers, k).value.fields.Keys >= {names[i]}
      && FillFields(names, values, answers, k).value.fields[names[i]]
         == Complete(values[i], answers[before..]).value.value
    decreases k
  {
    assert FillFields(names, values, answers, k - 1).Ok?;
    var f := FillFields(names, values, answers, k - 1).value;
    FillOneShape(f, answers, names[k - 1], values[k - 1]);
    if i < k - 1 {
      FillFieldsAt(names, values, answers, k - 1, i);
    }
  }

  /** When every paired value is acceptable nothing is asked: the fields are
      the printed values, no answer is read and nothing is shown. */
  lemma {:induction false} FillFieldsNoPrompt(names: seq<string>, values: seq<string>, answers: seq<string>, k: nat)
    requires k <= |values| && k <= |names|
    requires Distinct(names)
    requires forall i :: 0 <= i < k ==> Acceptable(values[i])
    ensures FillFields(names, values, answers, k).Ok?
    ensures FillFields(names, values, answers, k).value.consumed == 0
    ensures FillFields(names, values, answers, k).value.printed == []
    ensures forall i :: 0 <= i < k ==>
      var fields := FillFields(names, values, answers, k).value.fields;
      names[i] in fields && fields[names[i]] == values[i]
    decreases k
  {
    if k > 0 {
      FillFieldsNoPrompt(names, values, answers, k - 1);
      assert answers[0..][..0] == [];
      forall i | 0 <= i < k
        ensures var fields := FillFields(names, values, answers, k).value.fields;
          names[i] in fields && fields[names[i]] == values[i]
      {
        FillFieldsAt(names, values, answers, k, i);
      }
    }
  }

  /** The keys read from setup.py are the first min(5, line count) field
      names: extra lines are ignored, missing lines leave keys absent. Every
      stored value is acceptable, and the failures are the missing setup.py,
      Python not launching, or the console running dry. */
  lemma SetupContextShape(run: SetupRun, answers: seq<string>)
    ensures run.NoSetupPy? ==> SetupContext(run, answers) == Err(ConfigurationError("Failed to find setup.py"))
    ensures run.PythonMissing? ==> SetupContext(run, answers) == Err(OSError)
    ensures run.SetupRan? && SetupContext(run, answers).Err? ==> SetupContext(run, answers).error == EOFError
    ensures run.SetupRan? && SetupContext(run, answers).Ok? ==>
      var n := if Count(run.stdout, '\n') < 5 then Count(run.stdout, '\n') else 5;
      forall name :: name in SetupContext(run, answers).value.fields <==> name in SetupFields[..n]
    ensures SetupContext(run, answers).Ok? ==> SetupFieldsValid(SetupContext(run, answers).value.fields)
  {
    if run.SetupRan? {
      var values := SetupLines(run.stdout);
      var n := Paired(values);
      FillFieldsFailsOnlyAtEof(SetupFields, values, answers, n);
      if FillFields(SetupFields, values, answers, n).Ok? {
        FillFieldsKeys(SetupFields, values, answers, n);
      }
    }
  }

  /** A setup.py printing all five fields, each acceptable and on its own line,
      yields exactly those values with no prompt. */
  lemma SetupContextComplete(lines: seq<string>, answers: seq<string>)
    requires |lines| == |SetupFields|
    requires forall i :: 0 <= i < |lines| ==> '\n' !in lines[i] && Acceptable(lines[i])
    ensures SetupContext(SetupRan(Terminated(lines, '\n')), answers).Ok?
    ensures SetupContext(SetupRan(Terminated(lines, '\n')), answers).value.consumed == 0
    ensures SetupContext(SetupRan(Terminated(lines, '\n')), answers).value.printed == []
    ensures forall i :: 0 <= i < |SetupFields| ==>
      var fields := SetupContext(SetupRan(Terminated(lines, '\n')), answers).value.fields;
      SetupFields[i] in fields && fields[SetupFields[i]] == lines[i]
  {
    var out := Terminated(lines, '\n');
    SetupLinesTerminated(lines);
    assert SetupContext(SetupRan(out), answers) == FillFields(SetupFields, lines, answers, |SetupFields|);
    SetupFieldsDistinct();
    FillFieldsNoPrompt(SetupFields, lines, answers, |SetupFields|);
  }

  /** `_context_from_setuppy` prompts for a field exactly when setup.py printed
      a line for it and that line is empty or `UNKNOWN`. */
  lemma SetupContextPrompts(stdout: string, answers: seq<string>, i: nat)
    requires i < |SetupFields|
    requires SetupContext(SetupRan(stdout), answers).Ok?
    ensures Count(SetupContext(SetupRan(stdout), answers).value.printed, MissingField(SetupFields[i])) > 0
        <==> i < |SetupLines(stdout)| && !Acceptable(SetupLines(stdout)[i])
  {
    var values := SetupLines(stdout);
    SetupFieldsDistinct();
    FillFieldsPrompts(SetupFields, values, answers, Paired(values), i);
  }

  /** The values read back from lines printed one per line are those lines. */
  lemma SetupLinesTerminated(lines: seq<string>)
    requires forall i :: 0 <= i < |lines| ==> '\n' !in lines[i]
    ensures SetupLines(Terminated(lines, '\n')) == lines
  {
    var out := Terminated(lines, '\n');
    SplitTerminated(lines, "", '\n');
    assert out + "" == out;
  }

  /** No setup.py field shares its name with a key the context gets elsewhere. */
  lemma ReservedKeys(name: string)
    requires name in SetupFields
    ensures name != "compat" && name != "date" && name != "latest_git_commit"
  {
  }

  /** Fields as `_context_from_setuppy` returns them: setup.py names with
      acceptable values. */
  ghost predicate SetupFieldsValid(fields: map<string, string>)
  {
    forall name :: name in fields ==> name in SetupFields && Acceptable(fields[name])
  }

  // ---------------------------------------------------------------------------
  // Git
  // ---------------------------------------------------------------------------

  /** What `_context_from_git` contributes: the commit line, or the error. */
  function ContextFromGit(run: GitRun): Result<string>
  {
    match run
    case GitMissing => Err(ConfigurationError("Please install git"))
    case GitFailed(reason) => Err(ConfigurationError("Unknown error occurred when invoking git: " + reason))
    case GitRan(stdout) => Ok(stdout)
  }

  // ---------------------------------------------------------------------------
  // Building the context
  // ---------------------------------------------------------------------------

  /** Successive `dict.update` calls: later layers override earlier ones. */
  function Merge(layers: seq<Context>): Context
    decreases |layers|
  {
    if layers == [] then map[] else Merge(layers[..|layers| - 1]) + layers[|layers| - 1]
  }

  /** A key is in the merged context exactly when some layer has it. */
  lemma {:induction false} MergeKeys(layers: seq<Context>, key: string)
    ensures key in Merge(layers) <==> exists i :: 0 <= i < |layers| && key in layers[i]
    decreases |layers|
  {
    if layers != [] {
      var front := layers[..|layers| - 1];
      MergeKeys(front, key);
      if key in Merge(front) {
        var i :| 0 <= i < |front| && key in front[i];
        assert key in layers[i];
      }
    }
  }

  /** The merged value of a key is that of the last layer holding it. */
  lemma {:induction false} MergeLast(layers: seq<Context>, key: string, i: nat)
    requires i < |layers| && key in layers[i]
    requires forall j :: i < j < |layers| ==> key !in layers[j]
    ensures key in Merge(layers) && Merge(layers)[key] == layers[i][key]
    decreases |layers|
  {
    if i < |layers| - 1 {
      MergeLast(layers[..|layers| - 1], key, i);
    }
  }

  /** Four layers merge as four successive updates of an empty context. */
  lemma MergeFour(a: Context, b: Context, c: Context, d: Context)
    ensures Merge([a, b, c, d]) == a + b + c + d
  {
    var l := [a, b, c, d];
    assert l[..3] == [a, b, c];
    assert [a, b, c][..2] == [a, b];
    assert [a, b][..1] == [a];
    assert [a][..0] == [];
    assert Merge([a]) == a by {
      assert Merge([a]) == map[] + a;
    }
    assert Merge([a, b]) == a + b;
    assert Merge([a, b, c]) == a + b + c;
  }

  /** The setup.py fields as context values. */
  function Lift(fields: map<string, string>): Context
  {
    map name | name in fields :: Str(fields[name])
  }

  /** The layers `__init__` applies, in order. */
  function InitLayers(now: int, fields: map<string, string>, commit: string): seq<Context>
  {
    [DefaultContext, map["date" := Time(now)], Lift(fields), map["latest_git_commit" := Str(commit)]]
  }

  /** Precedence of the layers: defaults, then `date`, then the setup.py
      fields, then `latest_git_commit`. */
  lemma InitContextPrecedence(now: int, fields: map<string, string>, commit: string)
    ensures Merge(InitLayers(now, fields, commit)).Keys == {"compat", "date", "latest_git_commit"} + fields.Keys
    ensures Merge(InitLayers(now, fields, commit))["latest_git_commit"] == Str(commit)
    ensures Merge(InitLayers(now, fields, commit))["compat"]
         == if "compat" in fields then Str(fields["compat"]) else Num(9)
    ensures Merge(InitLayers(now, fields, commit))["date"]
         == if "date" in fields then Str(fields["date"]) else Time(now)
    ensures forall name :: name in fields && name != "latest_git_commit" ==>
      Merge(InitLayers(now, fields, commit))[name] == Str(fields[name])
  {
    MergeFour(DefaultContext, map["date" := Time(now)], Lift(fields), map["latest_git_commit" := Str(commit)]);
  }

  // ---------------------------------------------------------------------------
  // Rendering
  // ---------------------------------------------------------------------------

  /** The name a template's output is written under. */
  function OutputName(template: string): (r: string)
    ensures '/' !in r
  {
    BasenameSuffix(template);
    RemoveAllKeeps(Basename(template), ".j2", '/');
    RemoveAll(Basename(template), ".j2")
  }

  /** A template under `resources/debian/` is written under its file name
      without the `.j2` suffix. */
  lemma OutputNameOfTemplate(file: string)
    requires '/' !in file && '.' !in file
    ensures OutputName(TemplatePath(file)) == file
  {
    assert "resources/debian/" + file + ".j2" == "resources/debian" + "/" + (file + ".j2");
    BasenameOfJoin("resources/debian", file + ".j2");
    RemoveTrailing(file, ".j2");
  }

  /** The triggers file is named after the package. */
  function TriggersName(name: string): string
  {
    name + ".triggers"
  }

  /** Each configured template is written under its file name without the
      `.j2` suffix: changelog, compat, control, rules. */
  lemma ConfiguredOutputName(i: nat)
    requires i < |Templates|
    ensures OutputName(Templates[i]) == OutputFiles[i]
  {
    OutputNameOfTemplate(OutputFiles[i]);
  }

  /** The names the given templates are written under, in order. */
  function OutputNames(templates: seq<string>): seq<string>
  {
    seq(|templates|, i requires 0 <= i < |templates| => OutputName(templates[i]))
  }

  /** The configured templates are written under changelog, compat, control
      and rules, in that order. */
  lemma ConfiguredOutputNames()
    ensures OutputNames(Templates) == OutputFiles
  {
    forall i | 0 <= i < |Templates| ensures OutputNames(Templates)[i] == OutputFiles[i] {
      ConfiguredOutputName(i);
    }
  }

  /** What the template engine makes of each template, in order. */
  function Renderings(jinja: (string, Context) -> string, ctx: Context, templates: seq<string>): seq<string>
  {
    seq(|templates|, i requires 0 <= i < |templates| => jinja(templates[i], ctx))
  }

  /** The directory after `contents[i]` has been written under `names[i]`,
      for each `i` in order, into an empty one. */
  function WriteAll(names: seq<string>, contents: seq<string>): map<string, string>
    requires |names| == |contents|
    decreases |names|
  {
    if names == [] then map[]
    else
      var k := |names| - 1;
      WriteAll(names[..k], contents[..k])[names[k] := contents[k]]
  }

  /** Writing one more file updates the directory under its name. */
  lemma WriteAllSnoc(names: seq<string>, contents: seq<string>, name: string, content: string)
    requires |names| == |contents|
    ensures WriteAll(names + [name], contents + [content]) == WriteAll(names, contents)[name := content]
  {
    assert (names + [name])[..|names|] == names;
    assert (contents + [content])[..|contents|] == contents;
  }

  /** Writing under distinct names leaves exactly those files, each holding
      what was written under its name. */
  lemma {:induction false} WriteAllFiles(names: seq<string>, contents: seq<string>)
    requires |names| == |contents|
    requires forall i, j :: 0 <= i < j < |names| ==> names[i] != names[j]
    ensures WriteAll(names, contents).Keys == set i | 0 <= i < |names| :: names[i]
    ensures forall i :: 0 <= i < |names| ==> WriteAll(names, contents)[names[i]] == contents[i]
    decreases |names|
  {
    if names != [] {
      var k := |names| - 1;
      WriteAllFiles(names[..k], contents[..k]);
      assert (set i | 0 <= i < k + 1 :: names[i]) == (set i | 0 <= i < k :: names[..k][i]) + {names[k]};
    }
  }

  /** The loop of `render` over the templates: each rendering is written, in
      order, under the template's output name into the freshly made
      directory. */
  method WriteTemplates(jinja: (string, Context) -> string, ctx: Context, templates: seq<string>)
    returns (dir: map<string, string>, written: seq<string>)
    ensures written == OutputNames(templates)
    ensures dir == WriteAll(written, Renderings(jinja, ctx, templates))
  {
    ghost var names := OutputNames(templates);
    ghost var contents := Renderings(jinja, ctx, templates);
    dir, written := map[], [];
    for i := 0 to |templates|
      invariant written == names[..i]
      invariant dir == WriteAll(written, contents[..i])
    {
      var filename := OutputName(templates[i]);
      var content := jinja(templates[i], ctx);
      WriteAllSnoc(written, contents[..i], filename, content);
      dir := dir[filename := content];
      written := written + [filename];
      assert names[..i + 1] == names[..i] + [names[i]];
      assert contents[..i + 1] == contents[..i] + [contents[i]];
    }
    assert names[..|templates|] == names;
    assert contents[..|templates|] == contents;
  }

  /** The directory after a complete render for package `name`. */
  function Rendered(jinja: (string, Context) -> string, ctx: Context, name: string): map<string, string>
  {
    WriteAll(OutputFiles, Renderings(jinja, ctx, Templates))[TriggersName(name) := jinja(TriggersTemplate, ctx) + "\n"]
  }

  /** A complete render holds exactly the five files: each template's
      rendering under its own name, and the triggers rendering, followed by a
      newline, under `<name>.triggers`. */
  lemma RenderedFiles(jinja: (string, Context) -> string, ctx: Context, name: string)
    ensures Rendered(jinja, ctx, name).Keys == {"changelog", "compat", "control", "rules", name + ".triggers"}
    ensures forall i :: 0 <= i < |Templates| ==> Rendered(jinja, ctx, name)[OutputFiles[i]] == jinja(Templates[i], ctx)
    ensures Rendered(jinja, ctx, name)[name + ".triggers"] == jinja(TriggersTemplate, ctx) + "\n"
  {
    WriteAllFiles(OutputFiles, Renderings(jinja, ctx, Templates));
    var t := TriggersName(name);
    assert t[|t| - 1] == 's' && |t| >= 9;
    assert t != "changelog" by {
      if |t| == 9 {
        assert "changelog"[8] == 'g';
      }
    }
    assert t !in OutputFiles;
    assert (set i | 0 <= i < |Templates| :: OutputFiles[i]) == {"changelog", "compat", "control", "rules"} by {
      assert OutputFiles[0] == "changelog" && OutputFiles[1] == "compat";
      assert OutputFiles[2] == "control" && OutputFiles[3] == "rules";
    }
  }

  /** The answer to "Replace it? [Y/n]" declines: `res.lower() in ["n", "no"]`. */
  predicate Declines(answer: string)
  {
    Lower(answer) == "n" || Lower(answer) == "no"
  }

  /** Exactly "n" and "no", in any mix of cases, decline; everything else,
      the empty answer included, accepts. */
  lemma DeclinesExactly(answer: string)
    ensures Declines(answer) <==> answer in {"n", "N", "no", "No", "nO", "NO"}
  {
    var low := Lower(answer);
    if |answer| == 1 {
      assert LowerChar(answer[0]) == 'n' <==> answer[0] == 'n' || answer[0] == 'N';
      assert low == "n" <==> low[0] == 'n';
      assert answer == "n" <==> answer[0] == 'n';
      assert answer == "N" <==> answer[0] == 'N';
    } else if |answer| == 2 {
      assert LowerChar(answer[0]) == 'n' <==> answer[0] == 'n' || answer[0] == 'N';
      assert LowerChar(answer[1]) == 'o' <==> answer[1] == 'o' || answer[1] == 'O';
      assert low == "no" <==> low[0] == 'n' && low[1] == 'o';
      assert answer == "no" <==> answer[0] == 'n' && answer[1] == 'o';
      assert answer == "No" <==> answer[0] == 'N' && answer[1] == 'o';
      assert answer == "nO" <==> answer[0] == 'n' && answer[1] == 'O';
      assert answer == "NO" <==> answer[0] == 'N' && answer[1] == 'O';
    }
  }

  /** Whether `render` goes on to (re)create the directory: it did not exist,
      or the operator's first answer did not decline. */
  predicate Replaces(existing: Option<map<string, string>>, answers: seq<string>)
  {
    existing.None? || (answers != [] && !Declines(answers[0]))
  }

  // ---------------------------------------------------------------------------
  // The configuration object
  // ---------------------------------------------------------------------------

  class DebianConfiguration {
    /** The template context, built once when the configuration is created. */
    var context: Context

    /** `compat`, `date` and `latest_git_commit` are present, and every
        setup.py field that is present holds an acceptable string (a field
        setup.py printed no line for, `name` included, may be absent). */
    ghost predicate Valid()
      reads this
    {
      && "compat" in context && "date" in context && "latest_git_commit" in context
      && forall name :: name in context && name in SetupFields ==> context[name].Str? && Acceptable(context[name].s)
    }

    /** The four `update` calls of `__init__`, starting from a copy of the
        defaults (the constant itself is never changed). */
    constructor (now: int, fields: map<string, string>, commit: string)
      requires SetupFieldsValid(fields)
      ensures Valid()
      ensures context == Merge(InitLayers(now, fields, commit))
    {
      var ctx := DefaultContext;
      ctx := ctx + map["date" := Time(now)];
      ctx := ctx + Lift(fields);
      ctx := ctx + map["latest_git_commit" := Str(commit)];
      context := ctx;
      MergeFour(DefaultContext, map["date" := Time(now)], Lift(fields), map["latest_git_commit" := Str(commit)]);
      forall name | name in ctx && name in SetupFields ensures ctx[name].Str? && Acceptable(ctx[name].s) {
        ReservedKeys(name);
      }
    }

    /** `DebianConfiguration(rootdir)`: read setup.py (prompting as needed),
        then git; either failure is raised and no configuration is made. */
    static method Create(now: int, setup: SetupRun, git: GitRun, answers: seq<string>)
      returns (r: Result<DebianConfiguration>, consumed: nat, printed: seq<Message>)
      ensures SetupContext(setup, answers).Err? ==> r == Err(SetupContext(setup, answers).error)
      ensures SetupContext(setup, answers).Ok? && git.GitMissing? ==>
        r == Err(ConfigurationError("Please install git"))
      ensures SetupContext(setup, answers).Ok? && git.GitFailed? ==>
        r == Err(ConfigurationError("Unknown error occurred when invoking git: " + git.reason))
      ensures SetupContext(setup, answers).Ok? && git.GitRan? ==>
        && r.Ok? && fresh(r.value) && r.value.Valid()
        && r.value.context == Merge(InitLayers(now, SetupContext(setup, answers).value.fields, git.stdout))
      ensures SetupContext(setup, answers).Ok? ==>
        && consumed == SetupContext(setup, answers).value.consumed
        && printed == SetupContext(setup, answers).value.printed
    {
      consumed, printed := 0, [];
      var s := ContextFromSetuppy(setup, answers);
      if s.Err? {
        return Err(s.error), consumed, printed;
      }
      consumed, printed := s.value.consumed, s.value.printed;
      var g := ContextFromGit(git);
      if g.Err? {
        return Err(g.error), consumed, printed;
      }
      SetupContextShape(setup, answers);
      var config := new DebianConfiguration(now, s.value.fields, g.value);
      r := Ok(config);
    }

    /** `render`: ask before replacing an existing `debian` directory, then
        write the four templates in order and the triggers file last.
        `existing` is the directory's contents if it exists; `dir` is its
        contents afterwards and `written` the files written, in order. */
    method Render(jinja: (string, Context) -> string, existing: Option<map<string, string>>, answers: seq<string>)
      returns (err: Option<Error>, dir: map<string, string>, written: seq<string>, rest: seq<string>)
      requires Valid()
      ensures existing.Some? && answers == [] ==>
        err == Some(EOFError) && dir == existing.value && written == [] && rest == []
      ensures existing.Some? && answers != [] && Declines(answers[0]) ==>
        && err == Some(ConfigurationError("Not removing debian directory"))
        && dir == existing.value && written == [] && rest == answers[1..]
      ensures Replaces(existing, answers) ==> rest == if existing.Some? then answers[1..] else answers
      ensures Replaces(existing, answers) && "name" in context ==>
        && err == None
        && written == OutputFiles + [TriggersName(context["name"].s)]
        && dir == Rendered(jinja, context, context["name"].s)
      ensures Replaces(existing, answers) && "name" !in context ==>
        && err == Some(KeyError("name"))
        && written == OutputFiles
        && dir == WriteAll(OutputFiles, Renderings(jinja, context, Templates))
    {
      rest := answers;
      if existing.Some? {
        if answers == [] {
          return Some(EOFError), existing.value, [], [];
        }
        var res := answers[0];
        rest := answers[1..];
        if Declines(res) {
          return Some(ConfigurationError("Not removing debian directory")), existing.value, [], rest;
        }
      }
      dir, written := WriteTemplates(jinja, context, Templates);
      ConfiguredOutputNames();
      var triggerContent := jinja(TriggersTemplate, context);
      if "name" !in context {
        return Some(KeyError("name")), dir, written, rest;
      }
      var triggerFilename := TriggersName(context["name"].s);
      dir := dir[triggerFilename := triggerContent + "\n"];
      written := written + [triggerFilename];
      err := None;
    }
  }
}
