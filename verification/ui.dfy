/**
  `ui.py`: the window's input check and its dispatch. Each of the eight buttons
  needs a fixed list of fields (`validate_inputs`); a click does nothing when
  the operation modules did not load, reports the first blank required field,
  and otherwise hands the fields to exactly one operation (`on_button_click`).
  Widget layout and the dialogs' wording are not modelled; a dialog is a
  `Notice` the window records.
*/
module Ui {
  import opened Wrappers
  import opened Text

  /** The six text inputs of the window. */
  datatype Field = Domain | Link | ServerIp | ServerPw | Template | BlackFile

  /** The key of a field in the window's `inputs` dictionary. */
  function Key(f: Field): string {
    match f
    case Domain => "domain"
    case Link => "link"
    case ServerIp => "server_ip"
    case ServerPw => "server_pw"
    case Template => "template"
    case BlackFile => "black_file"
  }

  /** What the six inputs hold. */
  datatype Form = Form(domain: string, link: string, serverIp: string, serverPw: string,
                       template: string, blackFile: string)
  {
    function Text(f: Field): string {
      match f
      case Domain => domain
      case Link => link
      case ServerIp => serverIp
      case ServerPw => serverPw
      case Template => template
      case BlackFile => blackFile
    }
  }

  /** A field counts as not filled in when nothing is left after `strip()`,
      that is (`StripEmptyIffBlank`) when it holds white space only. */
  predicate Missing(form: Form, f: Field) {
    Blank(form.Text(f))
  }

  /** The table of required fields, in the order they are checked; a button
      outside it needs nothing. */
  function Required(button: int): Option<seq<Field>> {
    if button == 1 || button == 2 then Some([Template])
    else if button == 3 then Some([Template, Domain, ServerIp, ServerPw])
    else if button == 4 then Some([ServerIp, ServerPw])
    else if button == 5 || button == 6 then Some([Domain, ServerIp, ServerPw])
    else if button == 7 then Some([BlackFile, ServerIp, ServerPw])
    else if button == 8 then Some([Domain, Link, ServerIp, ServerPw])
    else None
  }

  /** Where the first of `fields[from..]` that is not filled in sits;
      `|fields|` when all are. */
  function FirstMissingIndex(form: Form, fields: seq<Field>, from: nat): (k: nat)
    requires from <= |fields|
    ensures from <= k <= |fields|
    ensures forall j | from <= j < k :: !Missing(form, fields[j])
    ensures k < |fields| ==> Missing(form, fields[k])
    decreases |fields| - from
  {
    if from == |fields| || Missing(form, fields[from]) then from
    else FirstMissingIndex(form, fields, from + 1)
  }

  /** The first of `fields` that is not filled in. */
  function FirstMissing(form: Form, fields: seq<Field>): Option<Field> {
    var k := FirstMissingIndex(form, fields, 0);
    if k < |fields| then Some(fields[k]) else None
  }

  /** The scan of `validate_inputs` stopping at `i`, before which every field
      is filled in, has found the first blank field, or none when it ran off
      the end. */
  lemma FirstMissingAt(form: Form, fields: seq<Field>, i: nat)
    requires i <= |fields| && forall j | 0 <= j < i :: !Missing(form, fields[j])
    requires i < |fields| ==> Missing(form, fields[i])
    ensures FirstMissing(form, fields) == if i < |fields| then Some(fields[i]) else None
  {
    assert FirstMissingIndex(form, fields, 0) == i;
  }

  /** The field `validate_inputs(button)` reports, if any. */
  function Validation(form: Form, button: int): Option<Field> {
    match Required(button)
    case None => None
    case Some(fields) => FirstMissing(form, fields)
  }

  /** The operation each button starts, with the fields it is given. */
  datatype Job =
    | CleanFolder(folder: string)
    | CleanHtml(folder: string)
    | Upload(path: string, domain: string, server: string, password: string)
    | Clean(server: string, password: string)
    | ServerControl(domain: string, server: string, password: string)
    | DomainControl(domain: string, server: string, password: string)
    | BlackUpload(path: string, server: string, password: string)
    | BlackServerControl(domain: string, links: string, server: string, password: string)
  {
    /** Every text handed to the operation. */
    function Args(): seq<string> {
      match this
      case CleanFolder(f) => [f]
      case CleanHtml(f) => [f]
      case Upload(p, d, s, w) => [p, d, s, w]
      case Clean(s, w) => [s, w]
      case ServerControl(d, s, w) => [d, s, w]
      case DomainControl(d, s, w) => [d, s, w]
      case BlackUpload(p, s, w) => [p, s, w]
      case BlackServerControl(d, l, s, w) => [d, l, s, w]
    }
  }

  /** The branch of `on_button_click` taken for `button`. */
  function Dispatch(form: Form, button: int): Option<Job> {
    if button == 1 then Some(CleanFolder(form.template))
    else if button == 2 then Some(CleanHtml(form.template))
    else if button == 3 then Some(Upload(form.template, form.domain, form.serverIp, form.serverPw))
    else if button == 4 then Some(Clean(form.serverIp, form.serverPw))
    else if button == 5 then Some(ServerControl(form.domain, form.serverIp, form.serverPw))
    else if button == 6 then Some(DomainControl(form.domain, form.serverIp, form.serverPw))
    else if button == 7 then Some(BlackUpload(form.blackFile, form.serverIp, form.serverPw))
    else if button == 8 then Some(BlackServerControl(form.domain, form.link, form.serverIp, form.serverPw))
    else None
  }

  /** A warning dialog: the modules did not load, or a field must be filled in. */
  datatype Notice = ModulesMissing | FieldMissing(field: Field)

  /** What a click changes: the warnings shown, the input holding the focus,
      and the operations started. */
  datatype Screen = Screen(notices: seq<Notice>, focus: Option<Field>, jobs: seq<Job>)

  /** The screen after `validate_inputs(button)`: a blank field is warned
      about and focused. */
  function Checked(s: Screen, form: Form, button: int): Screen {
    match Validation(form, button)
    case None => s
    case Some(f) => s.(notices := s.notices + [FieldMissing(f)], focus := Some(f))
  }

  /** The screen after `on_button_click(button)`. */
  function Click(s: Screen, loaded: bool, form: Form, button: int): Screen {
    if !loaded then s.(notices := s.notices + [ModulesMissing])
    else if Validation(form, button).Some? then Checked(s, form, button)
    else match Dispatch(form, button)
      case None => s
      case Some(job) => s.(jobs := s.jobs + [job])
  }

  /** The loop of `validate_inputs`: the fields are checked in order and the
      scan stops at the first one left blank. */
  method ScanFields(form: Form, fields: seq<Field>) returns (i: nat)
    ensures i <= |fields|
    ensures forall j | 0 <= j < i :: !Missing(form, fields[j])
    ensures i < |fields| ==> Missing(form, fields[i])
  {
    i := 0;
    while i < |fields|
      invariant i <= |fields|
      invariant forall j | 0 <= j < i :: !Missing(form, fields[j])
    {
      if Missing(form, fields[i]) {
        return;
      }
      i := i + 1;
    }
  }

  /** The screen after a check whose verdict is `v`. */
  lemma CheckedIs(s: Screen, form: Form, button: int, v: Option<Field>)
    requires Validation(form, button) == v
    ensures Checked(s, form, button)
      == if v.None? then s else Screen(s.notices + [FieldMissing(v.value)], Some(v.value), s.jobs)
  {
  }

  class Window {
    /** Whether the operation modules were imported. */
    const loaded: bool
    var form: Form
    var notices: seq<Notice>
    var focus: Option<Field>
    var jobs: seq<Job>

    constructor(loaded: bool, form: Form)
      ensures this.loaded == loaded && this.form == form
      ensures State() == Screen([], None, [])
    {
      this.loaded := loaded;
      this.form := form;
      notices := [];
      focus := None;
      jobs := [];
    }

    function State(): Screen
      reads this
    {
      Screen(notices, focus, jobs)
    }

    method ValidateInputs(button: int) returns (ok: bool)
      modifies this
      ensures ok == Validation(form, button).None?
      ensures form == old(form)
      ensures State() == Checked(old(State()), form, button)
    {
      var required := Required(button);
      if required.None? {
        CheckedIs(State(), form, button, None);
        return true;
      }
      var fields := required.value;
      var i := ScanFields(form, fields);
      FirstMissingAt(form, fields, i);
      if i < |fields| {
        CheckedIs(State(), form, button, Some(fields[i]));
        notices := notices + [FieldMissing(fields[i])];
        focus := Some(fields[i]);
        return false;
      }
      CheckedIs(State(), form, button, None);
      return true;
    }

    method OnButtonClick(button: int)
      modifies this
      ensures form == old(form)
      ensures State() == Click(old(State()), loaded, form, button)
    {
      if !loaded {
        notices := notices + [ModulesMissing];
        return;
      }
      var ok := ValidateInputs(button);
      if !ok {
        return;
      }
      var job := Dispatch(form, button);
      if job.Some? {
        jobs := jobs + [job.value];
      }
    }
  }

  // ---------------------------------------------------------------------------
  // Properties

  /** The buttons the table knows are 1 to 8. */
  lemma TableCovers(button: int)
    ensures Required(button).Some? <==> 1 <= button <= 8
  {
  }

  /** A button outside the table always passes; one inside fails exactly when
      one of its required fields is blank, and the field reported is the first
      blank one in table order. */
  lemma ValidationIff(form: Form, button: int)
    ensures Required(button).None? ==> Validation(form, button).None?
    ensures Required(button).Some? ==>
      var fields := Required(button).value;
      && (Validation(form, button).None? <==> forall j | 0 <= j < |fields| :: !Missing(form, fields[j]))
      && (Validation(form, button).Some? ==>
            exists k | 0 <= k < |fields| :: fields[k] == Validation(form, button).value
              && Missing(form, fields[k]) && forall j | 0 <= j < k :: !Missing(form, fields[j]))
  {
    match Required(button)
    case None =>
    case Some(fields) =>
      var k := FirstMissingIndex(form, fields, 0);
      if k < |fields| {
        assert fields[k] == Validation(form, button).value;
      }
  }

  /** Nothing is started unless the modules loaded and the inputs passed;
      otherwise buttons 1–8 start exactly one operation and any other button
      none. A refused click shows one warning. */
  lemma ClickStartsAtMostOne(s: Screen, loaded: bool, form: Form, button: int)
    ensures var t := Click(s, loaded, form, button);
      && (!loaded || Validation(form, button).Some? || button < 1 || 8 < button ==> t.jobs == s.jobs)
      && (loaded && Validation(form, button).None? && 1 <= button <= 8 ==>
            t.jobs == s.jobs + [Dispatch(form, button).value] && t.notices == s.notices)
      && (!loaded || Validation(form, button).Some? ==> |t.notices| == |s.notices| + 1)
  {
  }

  /** Each button hands its operation exactly its required fields, in table
      order. */
  lemma DispatchedRequired(form: Form, button: int)
    requires Dispatch(form, button).Some?
    ensures Required(button).Some?
    ensures var args := Dispatch(form, button).value.Args();
      var fields := Required(button).value;
      |args| == |fields| && forall i | 0 <= i < |args| :: args[i] == form.Text(fields[i])
  {
    if button == 1 || button == 2 {
    } else if button == 3 {
    } else if button == 4 {
    } else if button == 5 || button == 6 {
    } else if button == 7 {
    } else {
    }
  }

  /** Only filled-in values reach the operations. */
  lemma DispatchedFilledIn(form: Form, button: int)
    requires Validation(form, button).None? && Dispatch(form, button).Some?
    ensures forall a | a in Dispatch(form, button).value.Args() :: Strip(a) != []
  {
    DispatchedRequired(form, button);
    FilledIn(form, Required(button).value);
  }

  /** No blank field found means every field is filled in. */
  lemma FilledIn(form: Form, fields: seq<Field>)
    requires FirstMissing(form, fields).None?
    ensures forall j | 0 <= j < |fields| :: Strip(form.Text(fields[j])) != []
  {
    assert FirstMissingIndex(form, fields, 0) == |fields|;
    forall j | 0 <= j < |fields|
      ensures Strip(form.Text(fields[j])) != []
    {
      StripEmptyIffBlank(form.Text(fields[j]));
    }
  }

  /** The dictionary keys are distinct, so each field names its own input. */
  lemma KeysDistinct(f: Field, g: Field)
    ensures Key(f) == Key(g) <==> f == g
  {
    if f != g {
      assert Key(f)[..2] != Key(g)[..2] || |Key(f)| != |Key(g)| || Key(f)[7] != Key(g)[7];
    }
  }
}
