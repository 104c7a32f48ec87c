/**
  Filter parameters and the dialog's per-parameter text buffers (the
  parameter loop of FilterPropertiesDialog::DoRender). Only float and integer
  parameters have an input widget; every other type is shown as
  unimplemented and left alone.
*/
module Parameters {
  import opened Wrappers

  /** The unit a parameter is displayed in (volts, hertz, ...); its formatting is external. */
  datatype Unit = Unit(code: nat)

  /** Unit::PrettyPrint: the text shown for a value in a unit. */
  type PrettyPrinter = (Unit, real) -> string

  /** The typed payload of a parameter (FilterParameter's type tag and value). */
  datatype ParamValue =
    | FloatVal(f: real)
    | IntVal(n: int)
    | BoolVal(b: bool)
    | FilenameVal(path: string)
    | EnumVal(code: int)
    | StringVal(text: string)
    | PatternVal(symbols: seq<int>)

  datatype Param = Param(value: ParamValue, unit: Unit)

  /**
    What the input widget of one parameter reports in this frame: the text
    the user left in its buffer, if they typed, and the value it applied, if
    the text was accepted.
  */
  datatype ParamEdit = ParamEdit(typed: Option<string>, applied: Option<real>)

  /** The widget report for `name`; a parameter the user did not touch reports nothing. */
  function EditFor(edits: map<string, ParamEdit>, name: string): ParamEdit
  {
    if name in edits then edits[name] else ParamEdit(None, None)
  }

  /** The parameter has an input widget (TYPE_FLOAT or TYPE_INT). */
  predicate Editable(p: Param)
  {
    p.value.FloatVal? || p.value.IntVal?
  }

  /** The value the widget edits: the float itself, or the integer as a number. */
  function Shown(p: Param): real
    requires Editable(p)
  {
    if p.value.FloatVal? then p.value.f else p.value.n as real
  }

  /** Both values carry the same type tag. */
  predicate SameKind(a: ParamValue, b: ParamValue)
  {
    match (a, b)
    case (FloatVal(_), FloatVal(_)) => true
    case (IntVal(_), IntVal(_)) => true
    case (BoolVal(_), BoolVal(_)) => true
    case (FilenameVal(_), FilenameVal(_)) => true
    case (EnumVal(_), EnumVal(_)) => true
    case (StringVal(_), StringVal(_)) => true
    case (PatternVal(_), PatternVal(_)) => true
    case _ => false
  }

  /** The conversion of a floating-point value to an integer that SetIntVal performs: toward zero. */
  function TruncateToInt(v: real): (r: int)
    ensures 0.0 <= v ==> r as real <= v < r as real + 1.0
    ensures v < 0.0 ==> r as real - 1.0 < v <= r as real
  {
    if 0.0 <= v then v.Floor else -((-v).Floor)
  }

  /** Truncation leaves a whole number unchanged. */
  lemma TruncateWhole(v: real)
    requires v.Floor as real == v
    ensures TruncateToInt(v) as real == v
  {
    if v < 0.0 {
      assert (-v).Floor == -v.Floor;
    }
  }

  /**
    The parameter after its widget reported `e`: only an editable parameter
    with an applied value changes, and it keeps its type tag and unit.
  */
  function Commit(p: Param, e: ParamEdit): (r: Param)
    ensures r.unit == p.unit && SameKind(r.value, p.value)
    ensures r != p ==> Editable(p) && e.applied.Some?
  {
    match p.value
    case FloatVal(_) => if e.applied.Some? then Param(FloatVal(e.applied.value), p.unit) else p
    case IntVal(_) => if e.applied.Some? then Param(IntVal(TruncateToInt(e.applied.value)), p.unit) else p
    case _ => p
  }

  /**
    After an applied value is committed the parameter holds it: a float
    parameter exactly, an integer parameter truncated toward zero.
  */
  lemma CommitStores(p: Param, e: ParamEdit)
    requires Editable(p) && e.applied.Some?
    ensures Editable(Commit(p, e))
    ensures Shown(Commit(p, e)) ==
      if p.value.FloatVal? then e.applied.value else TruncateToInt(e.applied.value) as real
  {
  }

  /**
    So the parameter shows the applied value itself when it is a float
    parameter, or when the value is whole.
  */
  lemma CommitShowsApplied(p: Param, e: ParamEdit)
    requires Editable(p) && e.applied.Some?
    requires p.value.FloatVal? || e.applied.value.Floor as real == e.applied.value
    ensures Editable(Commit(p, e)) && Shown(Commit(p, e)) == e.applied.value
  {
    CommitStores(p, e);
    if p.value.IntVal? {
      TruncateWhole(e.applied.value);
    }
  }

  /** The parameter store after the widgets of the parameters in `done` have run. */
  function ParamsAfter(params: map<string, Param>, edits: map<string, ParamEdit>, done: set<string>): (r: map<string, Param>)
  {
    map n | n in params :: if n in done then Commit(params[n], EditFor(edits, n)) else params[n]
  }

  /**
    The parameter store keeps its names, every parameter keeps its type tag
    and unit, and a value changes only for an editable parameter in `done`
    whose widget applied a value.
  */
  lemma ParamsAfterFacts(params: map<string, Param>, edits: map<string, ParamEdit>, done: set<string>)
    ensures ParamsAfter(params, edits, done).Keys == params.Keys
    ensures forall n :: n in params ==>
      ParamsAfter(params, edits, done)[n].unit == params[n].unit
      && SameKind(ParamsAfter(params, edits, done)[n].value, params[n].value)
    ensures forall n :: n in params && ParamsAfter(params, edits, done)[n] != params[n] ==>
      n in done && Editable(params[n]) && EditFor(edits, n).applied.Some?
  {
  }

  /**
    The parameter store after the widget of parameter `name` reported `e`:
    only that parameter is committed, and only when it has a value to commit.
  */
  function CommitStep(params: map<string, Param>, name: string, e: ParamEdit): map<string, Param>
    requires name in params
  {
    if Editable(params[name]) && e.applied.Some? then params[name := Commit(params[name], e)] else params
  }

  /** Running the widget of one more parameter is one CommitStep. */
  lemma ParamsAfterStep(params: map<string, Param>, edits: map<string, ParamEdit>, done: set<string>, name: string)
    requires name in params && name !in done
    ensures name in ParamsAfter(params, edits, done) && ParamsAfter(params, edits, done)[name] == params[name]
    ensures ParamsAfter(params, edits, done + {name}) ==
      CommitStep(ParamsAfter(params, edits, done), name, EditFor(edits, name))
  {
  }

  /** Some parameter in `done` had a value committed. */
  predicate AnyCommit(params: map<string, Param>, edits: map<string, ParamEdit>, done: set<string>)
  {
    exists n :: n in done && n in params && Editable(params[n]) && EditFor(edits, n).applied.Some?
  }

  /** The names in `done` of parameters that have an input widget. */
  function EditableNames(params: map<string, Param>, done: set<string>): set<string>
  {
    set n | n in done && n in params && Editable(params[n])
  }

  /** The text buffers after the widgets of the parameters in `done` have run. */
  function BuffersAfter(temp: map<string, string>, params: map<string, Param>, edits: map<string, ParamEdit>,
                        prettyPrint: PrettyPrinter, done: set<string>): (r: map<string, string>)
  {
    map n | n in temp.Keys + EditableNames(params, done) ::
      if n in EditableNames(params, done) && EditFor(edits, n).typed.Some? then EditFor(edits, n).typed.value
      else if n in temp then temp[n]
      else prettyPrint(params[n].unit, Shown(params[n]))
  }

  /**
    A buffer is created only for an editable parameter that has none, and is
    then seeded with the formatted current value unless the user typed; an
    existing buffer changes only to the text the user typed into it.
  */
  lemma BuffersAfterFacts(temp: map<string, string>, params: map<string, Param>, edits: map<string, ParamEdit>,
                          prettyPrint: PrettyPrinter, done: set<string>)
    ensures BuffersAfter(temp, params, edits, prettyPrint, done).Keys == temp.Keys + EditableNames(params, done)
    ensures forall n :: n in temp && BuffersAfter(temp, params, edits, prettyPrint, done)[n] != temp[n] ==>
      n in EditableNames(params, done) && EditFor(edits, n).typed == Some(BuffersAfter(temp, params, edits, prettyPrint, done)[n])
    ensures forall n :: n in BuffersAfter(temp, params, edits, prettyPrint, done) && n !in temp
                        && EditFor(edits, n).typed.None? ==>
      n in params && Editable(params[n])
      && BuffersAfter(temp, params, edits, prettyPrint, done)[n] == prettyPrint(params[n].unit, Shown(params[n]))
  {
  }

  /**
    The text buffers after the widget of parameter `name` (currently `p`)
    ran: an editable parameter gets its buffer created from the formatted
    value if it has none, then replaced by the user's typing if any; any
    other parameter leaves the buffers alone.
  */
  function BufferStep(temp: map<string, string>, p: Param, name: string, e: ParamEdit,
                      prettyPrint: PrettyPrinter): map<string, string>
  {
    if !Editable(p) then temp
    else
      var seeded := if name in temp then temp else temp[name := prettyPrint(p.unit, Shown(p))];
      if e.typed.Some? then seeded[name := e.typed.value] else seeded
  }

  /** Running the widget of one more parameter is one BufferStep. */
  lemma BuffersAfterStep(temp: map<string, string>, params: map<string, Param>, edits: map<string, ParamEdit>,
                         prettyPrint: PrettyPrinter, done: set<string>, name: string)
    requires name in params && name !in done
    ensures BuffersAfter(temp, params, edits, prettyPrint, done + {name}) ==
      BufferStep(BuffersAfter(temp, params, edits, prettyPrint, done), params[name], name, EditFor(edits, name), prettyPrint)
  {
    assert EditableNames(params, done + {name}) ==
      EditableNames(params, done) + (if Editable(params[name]) then {name} else {});
  }

  /**
    Seeding is idempotent: a second pass over the parameters the first pass
    committed, in which the user types nothing, leaves every buffer as the
    first pass left it.
  */
  lemma BuffersIdempotent(temp: map<string, string>, params: map<string, Param>, edits: map<string, ParamEdit>,
                          quiet: map<string, ParamEdit>, prettyPrint: PrettyPrinter, done: set<string>)
    requires forall n :: n in quiet ==> quiet[n].typed.None?
    ensures BuffersAfter(BuffersAfter(temp, params, edits, prettyPrint, done), ParamsAfter(params, edits, done),
                         quiet, prettyPrint, done)
            == BuffersAfter(temp, params, edits, prettyPrint, done)
  {
    var committed := ParamsAfter(params, edits, done);
    var once := BuffersAfter(temp, params, edits, prettyPrint, done);
    var twice := BuffersAfter(once, committed, quiet, prettyPrint, done);
    ParamsAfterFacts(params, edits, done);
    assert EditableNames(committed, done) == EditableNames(params, done);
    assert twice.Keys == once.Keys;
    forall n | n in once ensures twice[n] == once[n] {
      assert EditFor(quiet, n).typed.None?;
    }
  }

  /** Set bookkeeping of the loop over the parameters: one more name is done. */
  lemma NameDone(keys: set<string>, pending: set<string>, name: string)
    requires name in pending && pending <= keys
    ensures pending - {name} <= keys
    ensures keys - (pending - {name}) == (keys - pending) + {name}
  {
  }

  /** Set bookkeeping of the loop over the parameters: nothing is pending, all are done. */
  lemma AllNamesDone(keys: set<string>, pending: set<string>)
    requires pending == {}
    ensures keys - pending == keys
  {
  }

  /** Committing one more parameter adds exactly its own commit to AnyCommit. */
  lemma AnyCommitStep(params: map<string, Param>, edits: map<string, ParamEdit>, done: set<string>, name: string)
    requires name in params
    ensures AnyCommit(params, edits, done + {name}) ==
      (AnyCommit(params, edits, done) || (Editable(params[name]) && EditFor(edits, name).applied.Some?))
  {
    if AnyCommit(params, edits, done + {name}) {
      var n :| n in done + {name} && n in params && Editable(params[n]) && EditFor(edits, n).applied.Some?;
    }
  }
}
