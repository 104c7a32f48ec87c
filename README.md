# Filter properties dialog: reconfiguring a filter

A Dafny model of ngscopeclient's `FilterPropertiesDialog`. This is the dialog that reconfigures one filter node of the signal graph. Each frame, `DoRender` does the following:

- sets the dialog title from the filter's hardware name;
- runs the base channel dialog, and returns false if that fails;
- lists the **stream catalog** (`FindAllStreams`), which is:
  - the null stream;
  - then every stream of every channel of every instrument in the session;
  - then every stream of every filter instance;
- for each filter input, offers in a combo box the catalog streams that the filter's validator accepts for that input, with the current binding preselected, and binds the input to the stream the user picks;
- for each float or integer parameter:
  - keeps a pending text buffer, created from the formatted value on first display;
  - commits a value when the input widget applies one;
- shows all other parameter types as unimplemented and leaves them alone;
- when anything was committed:
  - regenerates the filter's default name (if it uses one) into the filter and into both of the dialog's name fields;
  - notifies the main window once.

Files:

- `wrappers.dfy`: `Option`.
- `stream_catalog.dfy` (module `StreamCatalog`):
  - stream descriptors;
  - the catalog as a function, `AllStreams`, with its length, membership and order lemmas;
  - `FindAllStreams`, the imperative enumeration, proved equal to `AllStreams`.
- `input_candidates.dfy` (module `InputCandidates`):
  - the per-input candidate filter `Candidates`;
  - the imperative loop `CollectCandidates`, which builds the candidate, name and selection values;
  - the binding state after the combo boxes, `InputsAfter`.
- `parameters.dfy` (module `Parameters`):
  - typed parameter values;
  - the commit of one widget report, `Commit`;
  - the parameter store and text buffers after a set of widgets has run, `ParamsAfter` and `BuffersAfter`.
- `properties_dialog.dfy` (module `PropertiesDialog`) holds the classes whose fields change in place:
  - `Filter`: its bindings, parameters and display name;
  - `MainWindow`: the log of reconfiguration notifications;
  - `FilterPropertiesDialog`: its title, its two display-name fields and `m_paramTempValues`.
  - It also holds `DoRender`, its section methods `RenderInputs` and `RenderParams`, and their per-item methods.
  - `RenderInputs` is proved against `PassInputs` and against `InputsShown && AnyPicked` for its flag; `RenderParams` against `PassParams`, `PassBuffers` and `ParamsShown && AnyCommit`.
  - `DoRender` is proved against all the pass functions, including `PassReconfigures`, the disjunction of the two flags.
  - `RenderInput` is proved against `Rebind`, and `RenderParam` against `CommitStep` and `BufferStep`.

The widgets are modelled as inputs to the frame, in the datatype `Interaction`:

- whether the base dialog succeeded;
- whether each collapsing header is open;
- the candidate position picked in each input's combo box;
- each parameter widget's report: the text typed, and the value applied, if any.

## Model

| member | source | states |
|---|---|---|
| StreamCatalog.AllStreams | src/ngscopeclient/FilterPropertiesDialog.cpp:190-213 | the catalog has one entry per existing stream plus one, and starts with the null stream |
| StreamCatalog.ProducerStreams | src/ngscopeclient/FilterPropertiesDialog.cpp:202-212 | defines the streams that the inner loops (202-203 for a channel, 211-212 for a filter instance) produce for one producer: indices 0 .. count-1 in order; there are `count` of them |
| StreamCatalog.ScopeStreams | src/ngscopeclient/FilterPropertiesDialog.cpp:199-204 | defines one instrument's part of the catalog: the streams of its channels, channel by channel; its length is the sum of the channels' stream counts |
| StreamCatalog.ChannelStreams | src/ngscopeclient/FilterPropertiesDialog.cpp:196-205 | defines the channel part of the catalog: the instruments' parts in session order; its length is the total channel stream count |
| StreamCatalog.FilterStreams | src/ngscopeclient/FilterPropertiesDialog.cpp:208-213 | defines the filter part of the catalog: the streams of each filter instance in registry order; its length is the total filter stream count |
| StreamCatalog.ProducerStreamsFacts | src/ngscopeclient/FilterPropertiesDialog.cpp:202-203 | the streams of one producer are indices 0 .. count-1, in increasing order, and nothing else |
| StreamCatalog.ScopeStreamsFacts | src/ngscopeclient/FilterPropertiesDialog.cpp:199-204 | one instrument contributes exactly the existing streams of its channels, ordered by channel then index |
| StreamCatalog.ChannelStreamsFacts | src/ngscopeclient/FilterPropertiesDialog.cpp:196-205 | the channel part holds exactly the existing channel streams of all instruments, in enumeration order |
| StreamCatalog.FilterStreamsFacts | src/ngscopeclient/FilterPropertiesDialog.cpp:208-213 | the filter part holds exactly the existing streams of all filter instances, in enumeration order |
| StreamCatalog.AllStreamsMembers | src/ngscopeclient/FilterPropertiesDialog.cpp:190-213 | a stream is in the catalog if and only if it is the null stream, an existing channel stream or an existing filter stream |
| StreamCatalog.AllStreamsOrdered | src/ngscopeclient/FilterPropertiesDialog.cpp:190-213 | the catalog is strictly ordered: null, then channels by (instrument, channel, index), then filters by (instance, index), so no stream is listed twice |
| StreamCatalog.ChannelsBeforeFilters | src/ngscopeclient/FilterPropertiesDialog.cpp:195-213 | the positions right after the null stream hold all channel streams; every later position holds a filter stream |
| StreamCatalog.AppendProducerStreams | src/ngscopeclient/FilterPropertiesDialog.cpp:202-212 | the two inner loops (a channel's streams at 202-203, a filter instance's streams at 211-212) each append exactly that producer's streams, in index order |
| StreamCatalog.AppendScopeStreams | src/ngscopeclient/FilterPropertiesDialog.cpp:199-204 | the loop over an instrument's channels appends exactly that instrument's part of the catalog |
| StreamCatalog.FindAllStreams | src/ngscopeclient/FilterPropertiesDialog.cpp:190-214 | the vector passed in gains exactly the catalog, appended after what it held |
| InputCandidates.Candidates | src/ngscopeclient/FilterPropertiesDialog.cpp:84-94 | defines the streams among the first n catalog entries that the validator accepts for input i, in catalog order; there are at most n of them |
| InputCandidates.CandidatesAreAcceptedSubsequence | src/ngscopeclient/FilterPropertiesDialog.cpp:84-94 | the candidates are the catalog streams at the positions the validator accepts; the positions increase, and a position is used if and only if the validator accepts its stream |
| InputCandidates.CandidatesMembers | src/ngscopeclient/FilterPropertiesDialog.cpp:84-94 | a stream is a candidate for input i if and only if it is in the catalog and the validator accepts it for i |
| InputCandidates.CandidatesOrdered | src/ngscopeclient/FilterPropertiesDialog.cpp:84-94 | filtering keeps the catalog order, so no candidate is offered twice |
| InputCandidates.CollectCandidates | src/ngscopeclient/FilterPropertiesDialog.cpp:81-94 | `matchingInputs` is the candidate list; `names[k]` names `matchingInputs[k]`; `sel` is -1 if and only if the current binding is not a candidate, and otherwise is the last position holding it |
| InputCandidates.RebindValid | src/ngscopeclient/FilterPropertiesDialog.cpp:96-101 | a combo box changes a binding only when the user picked a candidate, and only to an accepted catalog stream |
| InputCandidates.Rebind | src/ngscopeclient/FilterPropertiesDialog.cpp:97-101 | defines the binding of input i after its combo box: the candidate at the picked position when the pick is among the candidates, otherwise the current binding |
| InputCandidates.InputsAfter | src/ngscopeclient/FilterPropertiesDialog.cpp:78-102 | defines the bindings after the combo boxes of the first `upto` inputs have run: `Rebind` for those, unchanged for the rest; the number of inputs is kept |
| InputCandidates.InputsAfterOnlyValidated | src/ngscopeclient/FilterPropertiesDialog.cpp:78-102 | after the input loop, a binding differs only for a picked input, and then holds an accepted catalog stream (a candidate); the other inputs keep theirs |
| Parameters.TruncateToInt | src/ngscopeclient/FilterPropertiesDialog.cpp:149 | the double-to-integer conversion of `SetIntVal(nval)` rounds toward zero (result within one, on the side of zero) |
| Parameters.Commit | src/ngscopeclient/FilterPropertiesDialog.cpp:117-166 | one widget report changes a parameter only if it is a float or integer and a value was applied; the type tag and unit are kept |
| Parameters.CommitStores | src/ngscopeclient/FilterPropertiesDialog.cpp:128-151 | after a commit, a float parameter holds the applied value and an integer parameter holds it truncated toward zero |
| Parameters.TruncateWhole | src/ngscopeclient/FilterPropertiesDialog.cpp:149 | converting a whole number to an integer loses nothing |
| Parameters.CommitShowsApplied | src/ngscopeclient/FilterPropertiesDialog.cpp:128-151 | after a commit, a float parameter holds the applied value, and so does an integer parameter when the value is whole |
| Parameters.CommitStep | src/ngscopeclient/FilterPropertiesDialog.cpp:128-151 | defines the parameter store after one parameter's widget ran: that parameter `Commit`ted when it is a float or integer with an applied value (lines 128-132, 147-151), otherwise the store unchanged |
| Parameters.BufferStep | src/ngscopeclient/FilterPropertiesDialog.cpp:121-147 | defines the text buffers after one parameter's widget ran: for a float or integer, the buffer is created from the formatted value if absent (121-124, 142-143), then replaced by typed text (128, 147); other types leave the buffers alone |
| Parameters.ParamsAfter | src/ngscopeclient/FilterPropertiesDialog.cpp:111-166 | defines the parameter store after the widgets of the parameters in `done` have run: each of those is `Commit`ted with its widget's report, the others are unchanged |
| Parameters.ParamsAfterFacts | src/ngscopeclient/FilterPropertiesDialog.cpp:111-166 | after the parameter loop, the names, type tags and units are unchanged; a value differs only for a float or integer parameter whose widget applied a value; unimplemented types are never modified |
| Parameters.BuffersAfter | src/ngscopeclient/FilterPropertiesDialog.cpp:121-147 | defines the text buffers after the widgets of the parameters in `done` have run: typed text for an editable parameter the user typed into, else its existing buffer, else its formatted value |
| Parameters.BuffersAfterFacts | src/ngscopeclient/FilterPropertiesDialog.cpp:121-147 | a buffer is created only for a float or integer parameter without one, seeded with the formatted value unless the user typed; an existing buffer changes only to the text typed |
| Parameters.BuffersIdempotent | src/ngscopeclient/FilterPropertiesDialog.cpp:121-124 | a later pass with no typing, over the parameters the first pass committed, leaves every buffer as the first pass left it; seeding never overwrites a buffer |
| PropertiesDialog.PassInputs | src/ngscopeclient/FilterPropertiesDialog.cpp:69-104 | defines the bindings after the Inputs section: `InputsAfter` over all inputs when the filter has inputs and the header is open, otherwise unchanged |
| PropertiesDialog.PassParams | src/ngscopeclient/FilterPropertiesDialog.cpp:106-169 | defines the parameters after the Parameters section: `ParamsAfter` over all parameters when the filter has parameters and the header is open, otherwise unchanged |
| PropertiesDialog.PassBuffers | src/ngscopeclient/FilterPropertiesDialog.cpp:106-169 | defines the text buffers after the Parameters section: `BuffersAfter` over all parameters when the section is shown, otherwise unchanged |
| PropertiesDialog.PassReconfigures | src/ngscopeclient/FilterPropertiesDialog.cpp:67-182 | defines when a pass sets the `reconfigured` flag: the Inputs section is shown and some input was picked, or the Parameters section is shown and some float or integer parameter had a value applied |
| PropertiesDialog.ChangeIsReconfiguration | src/ngscopeclient/FilterPropertiesDialog.cpp:97-182 | a pass that changes a binding or a parameter sets `reconfigured`, so the main window is told of every change |
| PropertiesDialog.QuietPassChangesNothing | src/ngscopeclient/FilterPropertiesDialog.cpp:97-182 | a pass that does not set `reconfigured` leaves the bindings and parameters as they were |
| PropertiesDialog.Filter.SetInput | src/ngscopeclient/FilterPropertiesDialog.cpp:99 | binding input i replaces exactly that input's stream |
| PropertiesDialog.Filter.SetFloatVal | src/ngscopeclient/FilterPropertiesDialog.cpp:130 | stores the value in that one float parameter, keeping its unit |
| PropertiesDialog.Filter.SetIntVal | src/ngscopeclient/FilterPropertiesDialog.cpp:149 | stores the value in that one integer parameter, keeping its unit |
| PropertiesDialog.Filter.SetDefaultName | src/ngscopeclient/FilterPropertiesDialog.cpp:176 | the display name becomes the one the naming policy gives for the current bindings and parameters |
| PropertiesDialog.MainWindow.OnFilterReconfigured | src/ngscopeclient/FilterPropertiesDialog.cpp:181 | one notification is appended to the main window's log |
| PropertiesDialog.FilterPropertiesDialog.constructor | src/ngscopeclient/FilterPropertiesDialog.cpp:45-50 | the dialog keeps the filter and the main window; it starts with no text buffers |
| PropertiesDialog.FilterPropertiesDialog.RenderInput | src/ngscopeclient/FilterPropertiesDialog.cpp:80-101 | one combo box rebinds only its own input, to the picked candidate if any, and changes nothing else of the filter; it reports whether a pick was made |
| PropertiesDialog.FilterPropertiesDialog.RenderInputs | src/ngscopeclient/FilterPropertiesDialog.cpp:69-104 | the Inputs section leaves the bindings as `PassInputs` says, and sets `reconfigured` if and only if some input was picked |
| PropertiesDialog.FilterPropertiesDialog.RenderParam | src/ngscopeclient/FilterPropertiesDialog.cpp:113-166 | one parameter: the buffer is created if absent, then replaced by typed text; an applied value is committed to that parameter only; other types change nothing |
| PropertiesDialog.FilterPropertiesDialog.RenderParams | src/ngscopeclient/FilterPropertiesDialog.cpp:106-169 | the Parameters section leaves the parameters and buffers as `PassParams`/`PassBuffers` say, and sets `reconfigured` if and only if some value was applied |
| PropertiesDialog.FilterPropertiesDialog.DoRender | src/ngscopeclient/FilterPropertiesDialog.cpp:57-185 | the title is the hardware name as it was when the frame started; a failing base dialog leaves everything else unchanged (the hardware name included) and returns false; otherwise bindings, parameters and buffers are those of the pass; the main window is notified once if something was committed and never otherwise; the default name is regenerated into all three name fields exactly when something was committed and a default name is in use, and the hardware name can change only then |

## Left out

- Widgets (`CollapsingHeader`, `Combo`, `UnitInputWithImplicitApply`, `SetNextItemWidth`, `Text`) are not drawn. Their results are fields of `Interaction`.
  - A pick outside the offered list is ignored, as the combo box cannot produce one.
  - Picking the already-bound stream counts as a commit, as a true return from `Combo` does.
- Unit formatting (`Unit::PrettyPrint`) is a function parameter. Parsing a typed value is folded into whether the widget applied a value. A failed parse is a report with no applied value, and the source does not report the failure either.
- The base `ChannelPropertiesDialog::DoRender` is the boolean `baseAccepted`.
  - Any edits the base dialog makes to `m_displayName`, `m_committedDisplayName`, the title, or the filter's display name and default-name flag are not modelled, so the "unchanged" clauses of `DoRender` hold under this abstraction.
  - The base class's constructor, which sets `m_title`, `m_displayName` and `m_committedDisplayName`, is not part of this model. The Dafny constructor sets the title from the hardware name and both name fields from the filter's display name; `DoRender` overwrites the title in every frame anyway.
- The session's instruments and the filter instance registry (`Filter::GetAllInstances`) are given as stream counts per channel and per instance. Producers are identified by their position.
- Stream names (`StreamDescriptor::GetName`) are a function parameter.
- `Filter::ValidateChannel` is a function parameter.
- `Filter::SetInput`'s own internal checks are not modelled, since its source is not part of this model. The dialog calls it only with a candidate that passed validation.
- `Filter::SetDefaultName`'s naming policy is a function of the bindings and parameters. Its effect on the hardware name is left unconstrained. The title is read from the hardware name before the regeneration, so on a frame that renames the filter it shows the old name until the next frame; `DoRender` promises the title as it was at the start of the frame.
- Map iteration order over the parameters is a nondeterministic choice. Each parameter is handled independently, so the result does not depend on the order.
- Floating point: parameter values are exact reals.
- TruncateToInt: does not model the 64-bit range of the integer conversion (out-of-range values are undefined behaviour in C++).
- CommitShowsApplied: does not model the loss of precision of large integers held in a double along the integer edit path.
- Behaviour of the code worth knowing, which the model reproduces:
  - A binding is not re-validated when it is committed.
  - A rejected parameter edit is not reported to the caller.
  - The main window is notified only in passes that committed something, and then once.
  - Integer parameters go through a real-valued edit value and are truncated back toward zero, not through an integer-exact path.
- `WaveformGroup.h` declares `WaveformGroup`, a container of waveform areas with a timeline, x-axis offset and pixel scale. The dialog does not use it, so it is not modelled.
- Concurrency between passes is not modelled: a pass is one method call.
