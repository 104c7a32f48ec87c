/**
  The legal choices for each input of a filter (the input loop of
  FilterPropertiesDialog::DoRender): the catalog streams the filter's
  validator accepts for that input, in catalog order, their names, and the
  position of the stream the input is bound to now.
*/
module InputCandidates {
  import opened Wrappers
  import opened StreamCatalog

  /** Filter::ValidateChannel: may stream x feed input i? */
  type Validator = (nat, StreamDescriptor) -> bool

  /** The streams among streams[0 .. n-1] that input i accepts, in their order. */
  function Candidates(streams: seq<StreamDescriptor>, validate: Validator, i: nat, n: nat): (r: seq<StreamDescriptor>)
    requires n <= |streams|
    ensures |r| <= n
  {
    if n == 0 then []
    else Candidates(streams, validate, i, n - 1) + (if validate(i, streams[n - 1]) then [streams[n - 1]] else [])
  }

  /** The positions in streams[0 .. n-1] of the streams input i accepts, increasing. */
  function Positions(streams: seq<StreamDescriptor>, validate: Validator, i: nat, n: nat): (r: seq<nat>)
    requires n <= |streams|
  {
    if n == 0 then []
    else Positions(streams, validate, i, n - 1) + (if validate(i, streams[n - 1]) then [n - 1] else [])
  }

  /**
    The candidates are exactly the order-preserving subsequence of the
    streams that pass the validator: the k-th candidate is the stream at the
    k-th accepted position, the positions increase, and a position is listed
    if and only if the validator accepts the stream there.
  */
  lemma {:induction false} CandidatesAreAcceptedSubsequence(streams: seq<StreamDescriptor>, validate: Validator, i: nat, n: nat)
    requires n <= |streams|
    ensures |Positions(streams, validate, i, n)| == |Candidates(streams, validate, i, n)|
    ensures forall k :: 0 <= k < |Positions(streams, validate, i, n)| ==>
      Positions(streams, validate, i, n)[k] < n
      && Candidates(streams, validate, i, n)[k] == streams[Positions(streams, validate, i, n)[k]]
    ensures forall k, l :: 0 <= k < l < |Positions(streams, validate, i, n)| ==>
      Positions(streams, validate, i, n)[k] < Positions(streams, validate, i, n)[l]
    ensures forall j :: 0 <= j < n ==> (j in Positions(streams, validate, i, n) <==> validate(i, streams[j]))
  {
    if n > 0 {
      CandidatesAreAcceptedSubsequence(streams, validate, i, n - 1);
    }
  }

  /** A stream is a candidate for input i exactly when it is in the catalog and the validator accepts it. */
  lemma CandidatesMembers(streams: seq<StreamDescriptor>, validate: Validator, i: nat)
    ensures forall x :: x in Candidates(streams, validate, i, |streams|) <==> x in streams && validate(i, x)
  {
    var c, p := Candidates(streams, validate, i, |streams|), Positions(streams, validate, i, |streams|);
    CandidatesAreAcceptedSubsequence(streams, validate, i, |streams|);
    forall x | x in streams && validate(i, x) ensures x in c {
      var j :| 0 <= j < |streams| && streams[j] == x;
      assert j in p;
      var k :| 0 <= k < |p| && p[k] == j;
      assert c[k] == x;
    }
  }

  /** Filtering keeps the catalog order, so no candidate appears twice. */
  lemma CandidatesOrdered(streams: seq<StreamDescriptor>, validate: Validator, i: nat)
    requires Ordered(streams)
    ensures Ordered(Candidates(streams, validate, i, |streams|))
  {
    var c, p := Candidates(streams, validate, i, |streams|), Positions(streams, validate, i, |streams|);
    CandidatesAreAcceptedSubsequence(streams, validate, i, |streams|);
    forall k, l | 0 <= k < l < |c| ensures Precedes(c[k], c[l]) {
      assert c[k] == streams[p[k]] && c[l] == streams[p[l]];
    }
  }

  /**
    Builds the candidate list and the name list of input i and finds the
    position of the current binding, as the loop over `streams` does: `sel`
    is the last candidate position holding `current`, or -1 if none does.
  */
  method CollectCandidates(streams: seq<StreamDescriptor>, validate: Validator, i: nat,
                           current: StreamDescriptor, streamName: StreamDescriptor -> string)
    returns (matching: seq<StreamDescriptor>, names: seq<string>, sel: int)
    ensures matching == Candidates(streams, validate, i, |streams|)
    ensures |names| == |matching|
    ensures forall k :: 0 <= k < |names| ==> names[k] == streamName(matching[k])
    ensures -1 <= sel < |matching|
    ensures sel == -1 <==> current !in matching
    ensures 0 <= sel ==> matching[sel] == current
    ensures forall k :: sel < k < |matching| ==> matching[k] != current
  {
    matching, names, sel := [], [], -1;
    for n := 0 to |streams|
      invariant matching == Candidates(streams, validate, i, n)
      invariant |names| == |matching|
      invariant forall k :: 0 <= k < |names| ==> names[k] == streamName(matching[k])
      invariant -1 <= sel < |matching|
      invariant sel == -1 <==> current !in matching
      invariant 0 <= sel ==> matching[sel] == current
      invariant forall k :: sel < k < |matching| ==> matching[k] != current
    {
      var stream := streams[n];
      if !validate(i, stream) {
        continue;
      }
      if current == stream {
        sel := |matching|;
      }
      matching := matching + [stream];
      names := names + [streamName(stream)];
    }
  }

  /**
    The binding of input i after the combo box: the candidate at the picked
    position when the user picked one, otherwise the current binding.
  */
  function Rebind(streams: seq<StreamDescriptor>, validate: Validator, picks: map<nat, nat>,
                  i: nat, current: StreamDescriptor): StreamDescriptor
  {
    var candidates := Candidates(streams, validate, i, |streams|);
    if i in picks && picks[i] < |candidates| then candidates[picks[i]] else current
  }

  /** The user picked a candidate for input i. */
  predicate Picked(streams: seq<StreamDescriptor>, validate: Validator, picks: map<nat, nat>, i: nat)
  {
    i in picks && picks[i] < |Candidates(streams, validate, i, |streams|)|
  }

  /**
    A binding write stores only a catalog stream the validator accepts for
    that input, and only when the user picked it.
  */
  lemma RebindValid(streams: seq<StreamDescriptor>, validate: Validator, picks: map<nat, nat>)
    ensures forall i, current :: Rebind(streams, validate, picks, i, current) != current ==>
      Picked(streams, validate, picks, i)
      && validate(i, Rebind(streams, validate, picks, i, current))
      && Rebind(streams, validate, picks, i, current) in streams
  {
    forall i: nat, current: StreamDescriptor | Rebind(streams, validate, picks, i, current) != current
      ensures Picked(streams, validate, picks, i)
      ensures validate(i, Rebind(streams, validate, picks, i, current))
      ensures Rebind(streams, validate, picks, i, current) in streams
    {
      CandidatesMembers(streams, validate, i);
    }
  }

  /** The bindings after the combo boxes of inputs 0 .. upto-1 have run. */
  function InputsAfter(inputs: seq<StreamDescriptor>, streams: seq<StreamDescriptor>, validate: Validator,
                       picks: map<nat, nat>, upto: nat): (r: seq<StreamDescriptor>)
    ensures |r| == |inputs|
  {
    seq(|inputs|, i requires 0 <= i < |inputs| =>
      if i < upto then Rebind(streams, validate, picks, i, inputs[i]) else inputs[i])
  }

  /**
    A binding changes only for an input among 0 .. upto-1 the user picked a
    candidate for, and then only to a catalog stream the validator accepts
    for that input; a picked input is bound to a candidate.
  */
  lemma InputsAfterOnlyValidated(inputs: seq<StreamDescriptor>, streams: seq<StreamDescriptor>, validate: Validator,
                                 picks: map<nat, nat>, upto: nat)
    ensures forall i :: 0 <= i < |inputs| && InputsAfter(inputs, streams, validate, picks, upto)[i] != inputs[i] ==>
      i < upto && Picked(streams, validate, picks, i)
      && validate(i, InputsAfter(inputs, streams, validate, picks, upto)[i])
      && InputsAfter(inputs, streams, validate, picks, upto)[i] in streams
    ensures forall i :: 0 <= i < |inputs| && i < upto && Picked(streams, validate, picks, i) ==>
      InputsAfter(inputs, streams, validate, picks, upto)[i] in Candidates(streams, validate, i, |streams|)
  {
    RebindValid(streams, validate, picks);
  }

  /** Running the combo box of input i extends the bindings by one input. */
  lemma InputsAfterStep(inputs: seq<StreamDescriptor>, streams: seq<StreamDescriptor>, validate: Validator,
                        picks: map<nat, nat>, i: nat)
    requires i < |inputs|
    ensures InputsAfter(inputs, streams, validate, picks, i)[i] == inputs[i]
    ensures InputsAfter(inputs, streams, validate, picks, i + 1)
            == InputsAfter(inputs, streams, validate, picks, i)[i := Rebind(streams, validate, picks, i, inputs[i])]
  {
  }

  /** Some input among 0 .. upto-1 had a candidate picked. */
  predicate AnyPicked(inputs: seq<StreamDescriptor>, streams: seq<StreamDescriptor>, validate: Validator,
                      picks: map<nat, nat>, upto: nat)
  {
    exists i :: 0 <= i < upto && i < |inputs| && Picked(streams, validate, picks, i)
  }

  /** Running the combo box of input i adds exactly its own pick to AnyPicked. */
  lemma AnyPickedStep(inputs: seq<StreamDescriptor>, streams: seq<StreamDescriptor>, validate: Validator,
                      picks: map<nat, nat>, i: nat)
    requires i < |inputs|
    ensures AnyPicked(inputs, streams, validate, picks, i + 1) ==
      (AnyPicked(inputs, streams, validate, picks, i) || Picked(streams, validate, picks, i))
  {
    if AnyPicked(inputs, streams, validate, picks, i + 1) && !Picked(streams, validate, picks, i) {
      var j :| 0 <= j < i + 1 && j < |inputs| && Picked(streams, validate, picks, j);
      assert j < i;
    }
  }
}
