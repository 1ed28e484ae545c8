/** The lead form's gate: a terms checkbox that enables and disables the PC
    and smartphone submit buttons, a click handler (`handleSubmit`) that
    refuses, submits or asks the browser to report the form's problems, the
    global `buttonPushed` flag that `onIframeLoaded` consults before
    redirecting, the "other job" field that `toggleOtherInput` shows and
    hides, and the hidden request identifier filled in when the page is
    ready.

    Two DOMContentLoaded handlers are registered, and both attach a change
    listener to the checkbox and a `handleSubmit` to each button. They differ
    in one line: only the first sets `buttonPushed` before calling
    `form.submit()`. A click on an enabled button therefore runs both
    handlers, first the flagging one, then the plain one.

    The browser's part is abstracted: `form.checkValidity()` is an input
    boolean, and `preventDefault`, `reportValidity`, `form.submit()` and the
    redirect are recorded as effects. */
module LeadForm {
  import Uuid

  /** Where `onIframeLoaded` sends the visitor. */
  const RedirectUrl: string := "https://monoriba.com/lp/lth1234/"

  /** The job option that asks for a free-text job. */
  const OtherOption: string := "__other_option__"

  /** `style.display` as the handlers leave it; `Unset` is the markup's own. */
  datatype Display = Unset | Block | NoDisplay

  /** The two `handleSubmit`s: the first DOMContentLoaded handler's sets
      `buttonPushed`, the second's does not. */
  datatype Variant = Flagging | Plain

  datatype Button = Pc | Sp

  /** What the handlers ask of the browser, in order. `Submit` records
      whether `buttonPushed` was already set when the form was submitted. */
  datatype Effect = PreventDefault | ReportValidity | Submit(flagSet: bool) | Navigate(url: string)

  /** Everything the handlers read or write. */
  datatype Form = Form(
    loaded: bool,
    checked: bool,
    pcDisabled: bool,
    spDisabled: bool,
    error: Display,
    uuid: string,
    buttonPushed: bool,
    changeListeners: nat,
    listeners: seq<Variant>,
    effects: seq<Effect>,
    otherDisplay: Display,
    otherRequired: bool,
    otherValue: string)

  /** The 31 random nibbles one call of `generateUUIDv4` draws, one per
      placeholder of its template. */
  type Draw = s: seq<Uuid.Nibble> | |s| == Uuid.NibbleCount witness seq(Uuid.NibbleCount, _ => 0)

  datatype Event =
    | Ready(nibbles: Draw)
    | Change(checked: bool)
    | Click(button: Button, valid: bool)
    | IframeLoaded
    | SelectJob(job: string)

  /** The page before DOMContentLoaded, with the markup's initial values. */
  function Initial(checked: bool, pcDisabled: bool, spDisabled: bool, otherRequired: bool): (f: Form)
    ensures !f.loaded && !f.buttonPushed && f.effects == [] && f.listeners == []
  {
    Form(false, checked, pcDisabled, spDisabled, Unset, "", false, 0, [], [], Unset, otherRequired, "")
  }

  /** The first DOMContentLoaded handler: fill in the identifier, set the
      buttons from the checkbox, and attach its listeners. */
  function LoadFirst(f: Form, nibbles: Draw): (r: Form)
    ensures Uuid.IsUuidV4(r.uuid)
    ensures r.pcDisabled == !f.checked && r.spDisabled == !f.checked
    ensures r.changeListeners == f.changeListeners + 1 && r.listeners == f.listeners + [Flagging]
    ensures r.(uuid := f.uuid, pcDisabled := f.pcDisabled, spDisabled := f.spDisabled,
               changeListeners := f.changeListeners, listeners := f.listeners) == f
  {
    f.(uuid := Uuid.Generate(nibbles), pcDisabled := !f.checked, spDisabled := !f.checked,
       changeListeners := f.changeListeners + 1, listeners := f.listeners + [Flagging])
  }

  /** The second DOMContentLoaded handler: attach its listeners. */
  function LoadSecond(f: Form): (r: Form)
    ensures r.changeListeners == f.changeListeners + 1 && r.listeners == f.listeners + [Plain]
    ensures r.(changeListeners := f.changeListeners, listeners := f.listeners) == f
  {
    f.(changeListeners := f.changeListeners + 1, listeners := f.listeners + [Plain])
  }

  /** DOMContentLoaded, which fires once: both handlers in registration order. */
  function Load(f: Form, nibbles: Draw): (r: Form)
    ensures r.loaded
    ensures !f.loaded ==> Uuid.IsUuidV4(r.uuid) && r.listeners == f.listeners + [Flagging, Plain]
    ensures f.loaded ==> r == f
  {
    if f.loaded then f else LoadSecond(LoadFirst(f, nibbles)).(loaded := true)
  }

  /** One checkbox change listener. */
  function OnChange(f: Form): (r: Form)
    ensures r.pcDisabled == !f.checked && r.spDisabled == !f.checked
    ensures r.error == if f.checked then NoDisplay else Block
    ensures r.(pcDisabled := f.pcDisabled, spDisabled := f.spDisabled, error := f.error) == f
  {
    f.(pcDisabled := !f.checked, spDisabled := !f.checked, error := if f.checked then NoDisplay else Block)
  }

  /** The checkbox becomes `checked`, then its `n` change listeners run. */
  function Toggle(f: Form, checked: bool, n: nat): (r: Form)
    ensures n == 0 ==> r == f.(checked := checked)
    ensures n > 0 ==> r == OnChange(f.(checked := checked))
    decreases n
  {
    if n == 0 then f.(checked := checked) else OnChange(Toggle(f, checked, n - 1))
  }

  /** One `handleSubmit`. */
  function OnSubmit(f: Form, v: Variant, valid: bool): (r: Form)
    ensures !f.checked ==>
      r.effects == f.effects + [PreventDefault] && r.error == Block && r.buttonPushed == f.buttonPushed
    ensures f.checked && valid ==>
      && r.buttonPushed == (f.buttonPushed || v == Flagging)
      && r.effects == f.effects + [Submit(r.buttonPushed)] && r.error == NoDisplay
    ensures f.checked && !valid ==>
      r.effects == f.effects + [PreventDefault, ReportValidity] && r.error == f.error
      && r.buttonPushed == f.buttonPushed
    ensures r.(effects := f.effects, error := f.error, buttonPushed := f.buttonPushed) == f
  {
    if !f.checked then
      f.(error := Block, effects := f.effects + [PreventDefault])
    else if valid then
      var pushed := f.buttonPushed || v == Flagging;
      f.(error := NoDisplay, buttonPushed := pushed, effects := f.effects + [Submit(pushed)])
    else
      f.(effects := f.effects + [PreventDefault, ReportValidity])
  }

  /** The click listeners `ls` in registration order. */
  function Dispatch(f: Form, ls: seq<Variant>, valid: bool): (r: Form)
    ensures f.effects <= r.effects
    ensures f.buttonPushed ==> r.buttonPushed
    ensures r.(effects := f.effects, error := f.error, buttonPushed := f.buttonPushed) == f
    decreases |ls|
  {
    if ls == [] then f else Dispatch(OnSubmit(f, ls[0], valid), ls[1..], valid)
  }

  function Disabled(f: Form, b: Button): bool
  {
    if b == Pc then f.pcDisabled else f.spDisabled
  }

  /** A click on button `b`; a disabled button dispatches no click. */
  function OnClick(f: Form, b: Button, valid: bool): (r: Form)
    ensures Disabled(f, b) ==> r == f
    ensures f.effects <= r.effects
    ensures r.(effects := f.effects, error := f.error, buttonPushed := f.buttonPushed) == f
  {
    if Disabled(f, b) then f else Dispatch(f, f.listeners, valid)
  }

  /** `onIframeLoaded`: the result frame finished loading. */
  function IframeLoad(f: Form): (r: Form)
    ensures r.effects == f.effects + (if f.buttonPushed then [Navigate(RedirectUrl)] else [])
    ensures r.(effects := f.effects) == f
  {
    if f.buttonPushed then f.(effects := f.effects + [Navigate(RedirectUrl)]) else f
  }

  /** `toggleOtherInput` after the job select changed to `job`. */
  function ToggleOther(f: Form, job: string): (r: Form)
    ensures r.otherRequired <==> job == OtherOption
    ensures r.otherDisplay == (if job == OtherOption then Block else NoDisplay)
    ensures r.otherValue == (if job == OtherOption then f.otherValue else "")
    ensures r.(otherDisplay := f.otherDisplay, otherRequired := f.otherRequired, otherValue := f.otherValue) == f
  {
    if job == OtherOption then f.(otherDisplay := Block, otherRequired := true)
    else f.(otherDisplay := NoDisplay, otherRequired := false, otherValue := "")
  }

  /** One page event. */
  function Step(f: Form, e: Event): (r: Form)
    ensures f.effects <= r.effects
    ensures f.loaded ==> r.loaded
    ensures f.buttonPushed ==> r.buttonPushed
    ensures e.Ready? ==> r.loaded
  {
    match e
    case Ready(nibbles) => Load(f, nibbles)
    case Change(checked) => Toggle(f, checked, f.changeListeners)
    case Click(b, valid) => OnClick(f, b, valid)
    case IframeLoaded => IframeLoad(f)
    case SelectJob(job) => ToggleOther(f, job)
  }

  function Run(f: Form, es: seq<Event>): Form
    decreases |es|
  {
    if es == [] then f else Run(Step(f, es[0]), es[1..])
  }

  // ---------------------------------------------------------------------------
  // Properties

  /** The recorded effects keep the flag's promise: every submission
      happened with `buttonPushed` already set, the flag is set exactly when
      something was submitted, and every redirect comes after a submission. */
  ghost predicate Flagged(f: Form)
  {
    && (forall i :: 0 <= i < |f.effects| && f.effects[i].Submit? ==> f.effects[i].flagSet)
    && (f.buttonPushed <==> Submit(true) in f.effects)
    && (forall i :: 0 <= i < |f.effects| && f.effects[i].Navigate? ==>
          f.effects[i].url == RedirectUrl && Submit(true) in f.effects[..i])
  }

  /** What holds of the page at every point. */
  ghost predicate Inv(f: Form)
  {
    && (!f.loaded ==> f.changeListeners == 0 && f.listeners == [])
    && (f.loaded ==> f.changeListeners == 2 && f.listeners == [Flagging, Plain])
    && (f.loaded ==> f.pcDisabled == !f.checked && f.spDisabled == !f.checked)
    && (f.loaded ==> Uuid.IsUuidV4(f.uuid))
    && Flagged(f)
  }

  lemma InitialInv(checked: bool, pcDisabled: bool, spDisabled: bool, otherRequired: bool)
    ensures Inv(Initial(checked, pcDisabled, spDisabled, otherRequired))
  {
  }

  /** Loading sets the buttons from the checkbox and attaches both handlers'
      listeners, flagging one first. */
  lemma LoadInv(f: Form, nibbles: Draw)
    requires Inv(f)
    ensures Inv(Load(f, nibbles))
    ensures !f.loaded ==> Load(f, nibbles).listeners == [Flagging, Plain]
  {
    if !f.loaded {
      assert [] + [Flagging] + [Plain] == [Flagging, Plain];
    }
  }

  /** After a checkbox change with both change listeners attached, the
      buttons are disabled exactly when the box is unchecked, and the error
      shows exactly then. */
  lemma ChangeGates(f: Form, checked: bool)
    requires f.changeListeners == 2
    ensures var r := Toggle(f, checked, 2);
      && r.checked == checked
      && r.pcDisabled == !checked && r.spDisabled == !checked
      && r.error == (if checked then NoDisplay else Block)
      && r == Toggle(f, checked, 1)
  {
  }

  /** A handler never submits an unchecked form: it shows the error and
      cancels the click, whatever the form's validity. */
  lemma {:induction false} UncheckedRefused(f: Form, ls: seq<Variant>, valid: bool)
    requires !f.checked
    ensures var r := Dispatch(f, ls, valid);
      && r.effects == f.effects + seq(|ls|, _ => PreventDefault)
      && r.buttonPushed == f.buttonPushed
      && r.error == (if ls == [] then f.error else Block)
    decreases |ls|
  {
    if ls != [] {
      var g := OnSubmit(f, ls[0], valid);
      UncheckedRefused(g, ls[1..], valid);
      assert f.effects + [PreventDefault] + seq(|ls| - 1, _ => PreventDefault)
          == f.effects + seq(|ls|, _ => PreventDefault);
    }
  }

  /** A click on an enabled button of a loaded, checked, valid form hides the
      error, sets `buttonPushed` and submits twice (once per handler), both
      times with the flag already set. */
  lemma ValidClickSubmits(f: Form, b: Button)
    requires Inv(f) && f.loaded && f.checked
    ensures var r := OnClick(f, b, true);
      && r.effects == f.effects + [Submit(true), Submit(true)]
      && r.buttonPushed && r.error == NoDisplay
      && r.(effects := f.effects, buttonPushed := f.buttonPushed, error := f.error) == f
  {
    var g := OnSubmit(f, Flagging, true);
    assert [Flagging, Plain][1..] == [Plain];
    assert Dispatch(f, [Flagging, Plain], true) == Dispatch(g, [Plain], true);
    assert g.effects + [Submit(true)] == f.effects + [Submit(true), Submit(true)];
  }

  /** A click on a loaded, checked but invalid form only asks the browser,
      twice, to cancel the click and report the problems. */
  lemma InvalidClickReports(f: Form, b: Button)
    requires Inv(f) && f.loaded && f.checked
    ensures OnClick(f, b, false)
         == f.(effects := f.effects + [PreventDefault, ReportValidity, PreventDefault, ReportValidity])
  {
    assert [Flagging, Plain][1..] == [Plain];
    assert f.effects + [PreventDefault, ReportValidity] + [PreventDefault, ReportValidity]
        == f.effects + [PreventDefault, ReportValidity, PreventDefault, ReportValidity];
  }

  /** Once loaded, a click with the box unchecked reaches no handler: both
      buttons are disabled. */
  lemma UncheckedClickIgnored(f: Form, b: Button, valid: bool)
    requires Inv(f) && f.loaded && !f.checked
    ensures OnClick(f, b, valid) == f
  {
  }

  /** One handler keeps the flag's promise when it is the flagging one, or
      the flag is already set, or it will not submit. */
  lemma SubmitFlagged(f: Form, v: Variant, valid: bool)
    requires Flagged(f)
    requires v == Flagging || f.buttonPushed || !(f.checked && valid)
    ensures Flagged(OnSubmit(f, v, valid))
    ensures OnSubmit(f, v, valid).(effects := f.effects, buttonPushed := f.buttonPushed, error := f.error) == f
    ensures f.checked && valid ==> OnSubmit(f, v, valid).buttonPushed
  {
    var g := OnSubmit(f, v, valid);
    assert forall i :: 0 <= i < |f.effects| ==> g.effects[i] == f.effects[i];
    assert forall i :: 0 <= i < |f.effects| ==> g.effects[..i] == f.effects[..i];
  }

  /** Both handlers, flagging one first, keep the flag's promise. */
  lemma DispatchFlagged(f: Form, valid: bool)
    requires Flagged(f)
    ensures Flagged(Dispatch(f, [Flagging, Plain], valid))
    ensures Dispatch(f, [Flagging, Plain], valid).(effects := f.effects, buttonPushed := f.buttonPushed, error := f.error) == f
  {
    var g := OnSubmit(f, Flagging, valid);
    SubmitFlagged(f, Flagging, valid);
    SubmitFlagged(g, Plain, valid);
    assert [Flagging, Plain][1..] == [Plain];
  }

  lemma IframeFlagged(f: Form)
    requires Flagged(f)
    ensures Flagged(IframeLoad(f))
  {
    var r := IframeLoad(f);
    if f.buttonPushed {
      assert r.effects[..|f.effects|] == f.effects;
      assert forall i :: 0 <= i < |f.effects| ==> r.effects[..i] == f.effects[..i];
    }
  }

  /** Every event keeps the invariant. */
  lemma StepInv(f: Form, e: Event)
    requires Inv(f)
    ensures Inv(Step(f, e))
  {
    match e
    case Ready(nibbles) =>
      LoadInv(f, nibbles);
    case Change(checked) =>
      if f.loaded {
        ChangeGates(f, checked);
      }
    case Click(b, valid) =>
      if !Disabled(f, b) && f.loaded {
        DispatchFlagged(f, valid);
      }
    case IframeLoaded =>
      IframeFlagged(f);
    case SelectJob(job) =>
  }

  lemma {:induction false} RunInv(f: Form, es: seq<Event>)
    requires Inv(f)
    ensures Inv(Run(f, es))
    decreases |es|
  {
    if es != [] {
      StepInv(f, es[0]);
      RunInv(Step(f, es[0]), es[1..]);
    }
  }

  /** Whatever happens on the page after it is served: once loaded, the
      buttons are disabled exactly when the terms box is unchecked and the
      identifier is a version-4 UUID; nothing is submitted before
      `buttonPushed` is set; and the visitor is redirected only after a
      submission, and then to the fixed landing page. */
  lemma Gate(checked: bool, pcDisabled: bool, spDisabled: bool, otherRequired: bool, es: seq<Event>)
    ensures var f := Run(Initial(checked, pcDisabled, spDisabled, otherRequired), es);
      && (f.loaded ==> f.pcDisabled == !f.checked && f.spDisabled == !f.checked && Uuid.IsUuidV4(f.uuid))
      && (forall i :: 0 <= i < |f.effects| && f.effects[i].Submit? ==> f.effects[i].flagSet)
      && (forall i :: 0 <= i < |f.effects| && f.effects[i].Navigate? ==>
            f.effects[i].url == RedirectUrl && Submit(true) in f.effects[..i])
  {
    InitialInv(checked, pcDisabled, spDisabled, otherRequired);
    RunInv(Initial(checked, pcDisabled, spDisabled, otherRequired), es);
  }

  /** `onIframeLoaded` redirects exactly when a submission has set the flag. */
  lemma RedirectIffPushed(f: Form)
    requires Inv(f)
    ensures Navigate(RedirectUrl) in IframeLoad(f).effects[|f.effects|..] <==> Submit(true) in f.effects
  {
    var r := IframeLoad(f);
    if f.buttonPushed {
      assert r.effects[|f.effects|..] == [Navigate(RedirectUrl)];
    } else {
      assert r.effects[|f.effects|..] == [];
    }
  }

  // ---------------------------------------------------------------------------
  // The page

  /** The form's elements and the global flag, updated in place by the
      handlers. */
  class Page {
    var loaded: bool
    var checked: bool
    var pcDisabled: bool
    var spDisabled: bool
    var error: Display
    var uuid: string
    var buttonPushed: bool
    var changeListeners: nat
    var listeners: seq<Variant>
    var effects: seq<Effect>
    var otherDisplay: Display
    var otherRequired: bool
    var otherValue: string

    function State(): Form
      reads this
    {
      Form(loaded, checked, pcDisabled, spDisabled, error, uuid, buttonPushed, changeListeners, listeners,
           effects, otherDisplay, otherRequired, otherValue)
    }

    /** The page as served. */
    constructor (checked0: bool, pcDisabled0: bool, spDisabled0: bool, otherRequired0: bool)
      ensures State() == Initial(checked0, pcDisabled0, spDisabled0, otherRequired0)
    {
      loaded := false;
      checked := checked0;
      pcDisabled := pcDisabled0;
      spDisabled := spDisabled0;
      error := Unset;
      uuid := "";
      buttonPushed := false;
      changeListeners := 0;
      listeners := [];
      effects := [];
      otherDisplay := Unset;
      otherRequired := otherRequired0;
      otherValue := "";
    }

    /** DOMContentLoaded, with the nibbles `generateUUIDv4` draws. */
    method ContentLoaded(nibbles: Draw)
      modifies this
      ensures State() == Load(old(State()), nibbles)
    {
      if !loaded {
        uuid := Uuid.Generate(nibbles);
        pcDisabled := !checked;
        spDisabled := !checked;
        changeListeners := changeListeners + 1;
        listeners := listeners + [Flagging];
        changeListeners := changeListeners + 1;
        listeners := listeners + [Plain];
        loaded := true;
      }
    }

    /** The visitor sets the terms box to `value`; its change listeners run. */
    method ChangeCheckbox(value: bool)
      modifies this
      ensures State() == Toggle(old(State()), value, old(changeListeners))
    {
      ghost var start := State();
      checked := value;
      var n := changeListeners;
      for i := 0 to n
        invariant changeListeners == n
        invariant i == 0 ==> State() == start.(checked := value)
        invariant i > 0 ==> State() == OnChange(start.(checked := value))
      {
        RunChangeListener();
      }
    }

    /** The change listener `DOMContentLoaded` attaches: the buttons follow
        the box, and the error shows while it is unchecked. */
    method RunChangeListener()
      modifies this
      ensures State() == OnChange(old(State()))
    {
      pcDisabled := !checked;
      spDisabled := !checked;
      error := if checked then NoDisplay else Block;
    }

    /** One `handleSubmit` of the given variant. */
    method HandleSubmit(v: Variant, valid: bool)
      modifies this
      ensures State() == OnSubmit(old(State()), v, valid)
    {
      if !checked {
        effects := effects + [PreventDefault];
        error := Block;
        return;
      }
      if valid {
        error := NoDisplay;
        if v == Flagging {
          buttonPushed := true;
        }
        effects := effects + [Submit(buttonPushed)];
      } else {
        effects := effects + [PreventDefault];
        effects := effects + [ReportValidity];
      }
    }

    /** A click on button `b`, with `valid` the form's `checkValidity()`. */
    method ClickButton(b: Button, valid: bool)
      modifies this
      ensures State() == OnClick(old(State()), b, valid)
    {
      var disabled := if b == Pc then pcDisabled else spDisabled;
      if disabled {
        return;
      }
      ghost var start := State();
      var ls := listeners;
      for i := 0 to |ls|
        invariant listeners == ls
        invariant Dispatch(State(), ls[i..], valid) == Dispatch(start, ls, valid)
      {
        assert ls[i..][1..] == ls[i + 1..];
        HandleSubmit(ls[i], valid);
      }
      assert ls[|ls|..] == [];
    }

    /** `onIframeLoaded`. */
    method OnIframeLoaded()
      modifies this
      ensures State() == IframeLoad(old(State()))
    {
      if buttonPushed {
        effects := effects + [Navigate(RedirectUrl)];
      }
    }

    /** `toggleOtherInput`, with the job select's current value. */
    method ToggleOtherInput(job: string)
      modifies this
      ensures State() == ToggleOther(old(State()), job)
    {
      if job == OtherOption {
        otherDisplay := Block;
        otherRequired := true;
      } else {
        otherDisplay := NoDisplay;
        otherRequired := false;
        otherValue := "";
      }
    }
  }
}
