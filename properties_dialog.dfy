/**
  One reconfiguration pass of a filter's properties dialog
  (FilterPropertiesDialog::DoRender): rebinding inputs to validated
  candidate streams, editing float and integer parameters through lazily
  created text buffers, regenerating the default name and notifying the main
  window once.
*/
module PropertiesDialog {
  import opened Wrappers
  import opened StreamCatalog
  import opened InputCandidates
  import opened Parameters

  /** Filter::SetDefaultName's naming policy: the name generated for given bindings and parameters. */
  type NamePolicy = (seq<StreamDescriptor>, map<string, Param>) -> string

  /** The state of a filter that the dialog reads and changes. */
  class Filter {
    /** The hardware name, which the dialog's title shows; regenerating the default name may change it. */
    var hwname: string
    const validate: Validator
    const namePolicy: NamePolicy
    var inputs: seq<StreamDescriptor>
    var params: map<string, Param>
    var usingDefaultName: bool
    var displayName: string

    constructor (hwname: string, validate: Validator, namePolicy: NamePolicy, inputs: seq<StreamDescriptor>,
                 params: map<string, Param>, usingDefaultName: bool, displayName: string)
      ensures this.hwname == hwname && this.validate == validate && this.namePolicy == namePolicy
      ensures this.inputs == inputs && this.params == params
      ensures this.usingDefaultName == usingDefaultName && this.displayName == displayName
    {
      this.hwname, this.validate, this.namePolicy := hwname, validate, namePolicy;
      this.inputs, this.params := inputs, params;
      this.usingDefaultName, this.displayName := usingDefaultName, displayName;
    }

    /** Binds input i to `stream`. */
    method SetInput(i: nat, stream: StreamDescriptor)
      requires i < |inputs|
      modifies this
      ensures inputs == old(inputs)[i := stream]
      ensures params == old(params) && usingDefaultName == old(usingDefaultName) && displayName == old(displayName)
      ensures hwname == old(hwname)
    {
      inputs := inputs[i := stream];
    }

    method SetFloatVal(name: string, v: real)
      requires name in params && params[name].value.FloatVal?
      modifies this
      ensures params == old(params)[name := Param(FloatVal(v), old(params)[name].unit)]
      ensures inputs == old(inputs) && usingDefaultName == old(usingDefaultName) && displayName == old(displayName)
      ensures hwname == old(hwname)
    {
      params := params[name := Param(FloatVal(v), params[name].unit)];
    }

    method SetIntVal(name: string, v: int)
      requires name in params && params[name].value.IntVal?
      modifies this
      ensures params == old(params)[name := Param(IntVal(v), old(params)[name].unit)]
      ensures inputs == old(inputs) && usingDefaultName == old(usingDefaultName) && displayName == old(displayName)
      ensures hwname == old(hwname)
    {
      params := params[name := Param(IntVal(v), params[name].unit)];
    }

    /**
      Regenerates the display name from the current bindings and parameters.
      The hardware name may be renamed as well, so nothing is promised about it.
    */
    method SetDefaultName()
      modifies this
      ensures displayName == namePolicy(inputs, params)
      ensures inputs == old(inputs) && params == old(params) && usingDefaultName == old(usingDefaultName)
    {
      displayName := namePolicy(inputs, params);
    }
  }

  /** The main window, as far as the dialog notifies it. */
  class MainWindow {
    /** The filters OnFilterReconfigured has been called with, in call order. */
    var reconfigured: seq<Filter>

    constructor ()
      ensures reconfigured == []
    {
      reconfigured := [];
    }

    method OnFilterReconfigured(f: Filter)
      modifies this
      ensures reconfigured == old(reconfigured) + [f]
    {
      reconfigured := reconfigured + [f];
    }
  }

  /**
    What the widgets report in one frame: whether the base dialog's part
    succeeded, whether the Inputs and Parameters sections are expanded, the
    candidate position picked in the combo box of each input, and the report
    of each parameter's input widget.
  */
  datatype Interaction = Interaction(
    baseAccepted: bool,
    inputsOpen: bool,
    paramsOpen: bool,
    picks: map<nat, nat>,
    edits: map<string, ParamEdit>)

  /** The session's instruments (stream count per channel) and filter instances (stream count each). */
  datatype Session = Session(scopes: seq<seq<nat>>, filters: seq<nat>)

  function SessionStreams(session: Session): seq<StreamDescriptor>
  {
    AllStreams(session.scopes, session.filters)
  }

  predicate InputsShown(ui: Interaction, inputs: seq<StreamDescriptor>)
  {
    ui.inputsOpen && |inputs| != 0
  }

  predicate ParamsShown(ui: Interaction, params: map<string, Param>)
  {
    ui.paramsOpen && |params| != 0
  }

  /** The bindings after a pass. */
  function PassInputs(ui: Interaction, inputs: seq<StreamDescriptor>, streams: seq<StreamDescriptor>,
                      validate: Validator): seq<StreamDescriptor>
  {
    if InputsShown(ui, inputs) then InputsAfter(inputs, streams, validate, ui.picks, |inputs|) else inputs
  }

  /** The parameters after a pass. */
  function PassParams(ui: Interaction, params: map<string, Param>): map<string, Param>
  {
    if ParamsShown(ui, params) then ParamsAfter(params, ui.edits, params.Keys) else params
  }

  /** The text buffers after a pass. */
  function PassBuffers(ui: Interaction, temp: map<string, string>, params: map<string, Param>,
                       prettyPrint: PrettyPrinter): map<string, string>
  {
    if ParamsShown(ui, params) then BuffersAfter(temp, params, ui.edits, prettyPrint, params.Keys) else temp
  }

  /** The pass committed a binding or a parameter value. */
  predicate PassReconfigures(ui: Interaction, inputs: seq<StreamDescriptor>, params: map<string, Param>,
                             streams: seq<StreamDescriptor>, validate: Validator)
  {
    (InputsShown(ui, inputs) && AnyPicked(inputs, streams, validate, ui.picks, |inputs|))
    || (ParamsShown(ui, params) && AnyCommit(params, ui.edits, params.Keys))
  }

  /**
    A pass that changes a binding or a parameter value is a reconfiguring
    one, so the main window hears of every change (the converse does not hold:
    re-picking the bound stream also counts as a commit).
  */
  lemma ChangeIsReconfiguration(ui: Interaction, inputs: seq<StreamDescriptor>, params: map<string, Param>,
                                streams: seq<StreamDescriptor>, validate: Validator)
    requires PassInputs(ui, inputs, streams, validate) != inputs || PassParams(ui, params) != params
    ensures PassReconfigures(ui, inputs, params, streams, validate)
  {
    if PassInputs(ui, inputs, streams, validate) != inputs {
      var r := PassInputs(ui, inputs, streams, validate);
      InputsAfterOnlyValidated(inputs, streams, validate, ui.picks, |inputs|);
      assert InputsShown(ui, inputs);
      var i :| 0 <= i < |r| && r[i] != inputs[i];
      assert Picked(streams, validate, ui.picks, i);
    } else {
      var r := PassParams(ui, params);
      assert ParamsShown(ui, params);
      ParamsAfterFacts(params, ui.edits, params.Keys);
      assert r.Keys == params.Keys;
      var n :| n in params && r[n] != params[n];
    }
  }

  /** A pass that commits nothing changes neither the bindings nor the parameters. */
  lemma QuietPassChangesNothing(ui: Interaction, inputs: seq<StreamDescriptor>, params: map<string, Param>,
                                streams: seq<StreamDescriptor>, validate: Validator)
    requires !PassReconfigures(ui, inputs, params, streams, validate)
    ensures PassInputs(ui, inputs, streams, validate) == inputs
    ensures PassParams(ui, params) == params
  {
    if PassInputs(ui, inputs, streams, validate) != inputs || PassParams(ui, params) != params {
      ChangeIsReconfiguration(ui, inputs, params, streams, validate);
    }
  }

  class FilterPropertiesDialog {
    const filter: Filter
    const parent: MainWindow
    var title: string
    var displayName: string
    var committedDisplayName: string
    /** Pending text of each parameter being edited, keyed by parameter name. */
    var paramTempValues: map<string, string>

    constructor (f: Filter, parent: MainWindow)
      ensures filter == f && this.parent == parent
      ensures title == f.hwname && displayName == f.displayName && committedDisplayName == f.displayName
      ensures paramTempValues == map[]
    {
      filter, this.parent := f, parent;
      title := f.hwname;
      displayName, committedDisplayName := f.displayName, f.displayName;
      paramTempValues := map[];
    }

    /**
      The combo box of input i: the validated catalog streams are offered by
      name with the current binding preselected, and a pick among them
      rebinds the input.
    */
    method RenderInput(i: nat, streams: seq<StreamDescriptor>, picks: map<nat, nat>,
                       streamName: StreamDescriptor -> string) returns (picked: bool)
      requires i < |filter.inputs|
      modifies filter
      ensures filter.inputs == old(filter.inputs)[i := Rebind(streams, filter.validate, picks, i, old(filter.inputs)[i])]
      ensures picked == Picked(streams, filter.validate, picks, i)
      ensures filter.params == old(filter.params) && filter.usingDefaultName == old(filter.usingDefaultName)
      ensures filter.displayName == old(filter.displayName) && filter.hwname == old(filter.hwname)
    {
      picked := false;
      var matching, names, sel := CollectCandidates(streams, filter.validate, i, filter.inputs[i], streamName);
      if i in picks && picks[i] < |names| {
        sel := picks[i];
        filter.SetInput(i, matching[sel]);
        picked := true;
      }
    }

    /**
      The Inputs section: for each input, offer the validated catalog
      streams and bind the input to the one the user picked.
    */
    method RenderInputs(ui: Interaction, session: Session, streamName: StreamDescriptor -> string)
      returns (reconfigured: bool)
      modifies filter
      ensures filter.inputs == PassInputs(ui, old(filter.inputs), SessionStreams(session), filter.validate)
      ensures reconfigured == (InputsShown(ui, old(filter.inputs))
        && AnyPicked(old(filter.inputs), SessionStreams(session), filter.validate, ui.picks, |old(filter.inputs)|))
      ensures filter.params == old(filter.params) && filter.usingDefaultName == old(filter.usingDefaultName)
      ensures filter.displayName == old(filter.displayName) && filter.hwname == old(filter.hwname)
    {
      reconfigured := false;
      if |filter.inputs| != 0 && ui.inputsOpen {
        ghost var inputs0 := filter.inputs;
        var streams := FindAllStreams([], session.scopes, session.filters);
        assert streams == SessionStreams(session);
        for i := 0 to |filter.inputs|
          invariant filter.inputs == InputsAfter(inputs0, streams, filter.validate, ui.picks, i)
          invariant reconfigured == AnyPicked(inputs0, streams, filter.validate, ui.picks, i)
          invariant filter.params == old(filter.params) && filter.usingDefaultName == old(filter.usingDefaultName)
          invariant filter.displayName == old(filter.displayName) && filter.hwname == old(filter.hwname)
        {
          InputsAfterStep(inputs0, streams, filter.validate, ui.picks, i);
          AnyPickedStep(inputs0, streams, filter.validate, ui.picks, i);
          var picked := RenderInput(i, streams, ui.picks, streamName);
          reconfigured := reconfigured || picked;
        }
      }
    }

    /**
      One parameter of the Parameters section: a float or integer parameter
      gets its text buffer created from the formatted value if it has none,
      the widget may replace the text, and an applied value is committed;
      any other type is shown as unimplemented and left alone.
    */
    method RenderParam(name: string, edit: ParamEdit, prettyPrint: PrettyPrinter) returns (applied: bool)
      requires name in filter.params
      modifies this`paramTempValues, filter
      ensures applied == (Editable(old(filter.params)[name]) && edit.applied.Some?)
      ensures filter.params == CommitStep(old(filter.params), name, edit)
      ensures paramTempValues == BufferStep(old(paramTempValues), old(filter.params)[name], name, edit, prettyPrint)
      ensures filter.inputs == old(filter.inputs) && filter.usingDefaultName == old(filter.usingDefaultName)
      ensures filter.displayName == old(filter.displayName) && filter.hwname == old(filter.hwname)
    {
      applied := false;
      var param := filter.params[name];
      match param.value {
        case FloatVal(f) =>
          if name !in paramTempValues {
            paramTempValues := paramTempValues[name := prettyPrint(param.unit, f)];
          }
          if edit.typed.Some? {
            paramTempValues := paramTempValues[name := edit.typed.value];
          }
          if edit.applied.Some? {
            filter.SetFloatVal(name, edit.applied.value);
            applied := true;
          }
        case IntVal(n) =>
          if name !in paramTempValues {
            paramTempValues := paramTempValues[name := prettyPrint(param.unit, n as real)];
          }
          if edit.typed.Some? {
            paramTempValues := paramTempValues[name := edit.typed.value];
          }
          if edit.applied.Some? {
            filter.SetIntVal(name, TruncateToInt(edit.applied.value));
            applied := true;
          }
        case _ =>
          // shown as an unimplemented type
      }
    }

    /**
      The Parameters section: every parameter of the filter, in some order
      (each is handled independently of the others).
    */
    method RenderParams(ui: Interaction, prettyPrint: PrettyPrinter) returns (reconfigured: bool)
      modifies this`paramTempValues, filter
      ensures filter.params == PassParams(ui, old(filter.params))
      ensures paramTempValues == PassBuffers(ui, old(paramTempValues), old(filter.params), prettyPrint)
      ensures reconfigured == (ParamsShown(ui, old(filter.params)) && AnyCommit(old(filter.params), ui.edits, old(filter.params).Keys))
      ensures filter.inputs == old(filter.inputs) && filter.usingDefaultName == old(filter.usingDefaultName)
      ensures filter.displayName == old(filter.displayName) && filter.hwname == old(filter.hwname)
    {
      reconfigured := false;
      if |filter.params| != 0 && ui.paramsOpen {
        ghost var params0, temp0 := filter.params, paramTempValues;
        ghost var done: set<string> := {};
        var pending := filter.params.Keys;
        while pending != {}
          invariant pending <= params0.Keys && done == params0.Keys - pending
          invariant filter.params == ParamsAfter(params0, ui.edits, done)
          invariant paramTempValues == BuffersAfter(temp0, params0, ui.edits, prettyPrint, done)
          invariant reconfigured == AnyCommit(params0, ui.edits, done)
          invariant filter.inputs == old(filter.inputs) && filter.usingDefaultName == old(filter.usingDefaultName)
          invariant filter.displayName == old(filter.displayName) && filter.hwname == old(filter.hwname)
          decreases pending
        {
          var name :| name in pending;
          ParamsAfterStep(params0, ui.edits, done, name);
          BuffersAfterStep(temp0, params0, ui.edits, prettyPrint, done, name);
          AnyCommitStep(params0, ui.edits, done, name);
          var applied := RenderParam(name, EditFor(ui.edits, name), prettyPrint);
          reconfigured := reconfigured || applied;
          NameDone(params0.Keys, pending, name);
          pending := pending - {name};
          done := done + {name};
        }
        AllNamesDone(params0.Keys, pending);
      }
    }

    /**
      One frame of the dialog. The title follows the filter's hardware name;
      if the base dialog's part fails nothing else changes and false is
      returned. Otherwise the bindings, parameters and text buffers become
      those of the pass; when the pass committed something the default name
      (if in use) is regenerated into both display-name fields and the main
      window is notified exactly once, and otherwise neither happens.
    */
    method DoRender(ui: Interaction, session: Session, streamName: StreamDescriptor -> string,
                    prettyPrint: PrettyPrinter) returns (ok: bool)
      modifies this, filter, parent
      ensures title == old(filter.hwname)
      ensures ok == ui.baseAccepted
      ensures filter.usingDefaultName == old(filter.usingDefaultName)
      ensures filter.inputs ==
        (if ok then PassInputs(ui, old(filter.inputs), SessionStreams(session), filter.validate) else old(filter.inputs))
      ensures filter.params == (if ok then PassParams(ui, old(filter.params)) else old(filter.params))
      ensures paramTempValues ==
        (if ok then PassBuffers(ui, old(paramTempValues), old(filter.params), prettyPrint) else old(paramTempValues))
      ensures var committed := ok && PassReconfigures(ui, old(filter.inputs), old(filter.params),
                                                       SessionStreams(session), filter.validate);
        && parent.reconfigured == old(parent.reconfigured) + (if committed then [filter] else [])
        && (committed && filter.usingDefaultName ==>
              filter.displayName == filter.namePolicy(filter.inputs, filter.params)
              && committedDisplayName == filter.displayName && displayName == filter.displayName)
        && (!(committed && filter.usingDefaultName) ==>
              filter.displayName == old(filter.displayName) && displayName == old(displayName)
              && committedDisplayName == old(committedDisplayName) && filter.hwname == old(filter.hwname))
    {
      title := filter.hwname;
      if !ui.baseAccepted {
        return false;
      }
      var inputsReconfigured := RenderInputs(ui, session, streamName);
      var paramsReconfigured := RenderParams(ui, prettyPrint);
      var reconfigured := inputsReconfigured || paramsReconfigured;
      if reconfigured {
        if filter.usingDefaultName {
          filter.SetDefaultName();
          committedDisplayName := filter.displayName;
          displayName := committedDisplayName;
        }
        parent.OnFilterReconfigured(filter);
      }
      return true;
    }
  }
}
