/**
 Editor markers of the query input: every explanation of the query
 validation's errors, then every explanation of its warnings, becomes a
 background marker over the explanation's span, classed by its group.
 */
module QueryMarkers {
  import opened Wrappers

  /** The span of one validation explanation; message and type fields are not used here. */
  datatype Explanation = Explanation(beginLine: int, beginColumn: int, endLine: int, endColumn: int)

  /** A validation state; `explanations` may be undefined. */
  datatype QueryValidationState = QueryValidationState(status: string, explanations: Option<seq<Explanation>>)

  /** An editor marker. */
  datatype Marker = Marker(startRow: int, startCol: int, endRow: int, endCol: int, kind: string, className: string)

  const MarkerClassName := "ace_marker"
  const ErrorClassName := MarkerClassName + " ace_validation_error"
  const WarningClassName := MarkerClassName + " ace_validation_warning"
  const BackgroundType := "background"

  /** `state?.explanations`, with the empty list for an undefined state or undefined explanations. */
  function ExplanationsOf(state: Option<QueryValidationState>): seq<Explanation> {
    match state
    case None => []
    case Some(s) => s.explanations.GetOr([])
  }

  /** The marker for one explanation. */
  function MarkerFor(e: Explanation, className: string): Marker {
    Marker(e.beginLine, e.beginColumn, e.endLine, e.endColumn, BackgroundType, className)
  }

  /** `createMarkers`: one marker per explanation, in order, copying the span. */
  function CreateMarkers(explanations: seq<Explanation>, className: string): (markers: seq<Marker>)
    ensures |markers| == |explanations|
    ensures forall i :: 0 <= i < |markers| ==> markers[i] == MarkerFor(explanations[i], className)
    ensures forall i :: 0 <= i < |markers| ==>
              && markers[i].startRow == explanations[i].beginLine
              && markers[i].startCol == explanations[i].beginColumn
              && markers[i].endRow == explanations[i].endLine
              && markers[i].endCol == explanations[i].endColumn
              && markers[i].kind == BackgroundType
              && markers[i].className == className
  {
    if |explanations| == 0 then []
    else [MarkerFor(explanations[0], className)] + CreateMarkers(explanations[1..], className)
  }

  /** `getMarkers(errors, warnings)`. */
  function GetMarkers(errors: Option<QueryValidationState>, warnings: Option<QueryValidationState>)
    : (markers: seq<Marker>)
    ensures var es := ExplanationsOf(errors);
            var ws := ExplanationsOf(warnings);
            && |markers| == |es| + |ws|
            && (forall i :: 0 <= i < |es| ==> markers[i] == MarkerFor(es[i], ErrorClassName))
            && (forall i :: |es| <= i < |markers| ==> markers[i] == MarkerFor(ws[i - |es|], WarningClassName))
  {
    CreateMarkers(ExplanationsOf(errors), ErrorClassName) + CreateMarkers(ExplanationsOf(warnings), WarningClassName)
  }

  /** The markers of one class, in order. */
  function WithClass(markers: seq<Marker>, className: string): seq<Marker> {
    if |markers| == 0 then []
    else if markers[0].className == className then [markers[0]] + WithClass(markers[1..], className)
    else WithClass(markers[1..], className)
  }

  lemma {:induction false} WithClassAppend(a: seq<Marker>, b: seq<Marker>, className: string)
    ensures WithClass(a + b, className) == WithClass(a, className) + WithClass(b, className)
    decreases |a|
  {
    if |a| == 0 {
      assert a + b == b;
    } else {
      assert (a + b)[0] == a[0];
      assert (a + b)[1..] == a[1..] + b;
      WithClassAppend(a[1..], b, className);
    }
  }

  /** Selecting a group's class from its own markers keeps them all; another class keeps none. */
  lemma {:induction false} WithClassOfCreated(explanations: seq<Explanation>, made: string, selected: string)
    ensures WithClass(CreateMarkers(explanations, made), selected)
         == if made == selected then CreateMarkers(explanations, made) else []
    decreases |explanations|
  {
    if |explanations| != 0 {
      var rest := CreateMarkers(explanations[1..], made);
      var all := [MarkerFor(explanations[0], made)] + rest;
      assert all[0] == MarkerFor(explanations[0], made);
      assert all[1..] == rest;
      WithClassOfCreated(explanations[1..], made, selected);
    }
  }

  lemma ErrorAndWarningClassesDiffer()
    ensures ErrorClassName != WarningClassName
  {
  }

  /**
   The markers split back into their groups: the error-classed markers are
   exactly the error explanations' markers and the warning-classed ones the
   warning explanations', each in explanation order.
   */
  lemma MarkersSplitByClass(errors: Option<QueryValidationState>, warnings: Option<QueryValidationState>)
    ensures WithClass(GetMarkers(errors, warnings), ErrorClassName)
         == CreateMarkers(ExplanationsOf(errors), ErrorClassName)
    ensures WithClass(GetMarkers(errors, warnings), WarningClassName)
         == CreateMarkers(ExplanationsOf(warnings), WarningClassName)
  {
    var es := CreateMarkers(ExplanationsOf(errors), ErrorClassName);
    var ws := CreateMarkers(ExplanationsOf(warnings), WarningClassName);
    assert GetMarkers(errors, warnings) == es + ws;
    ErrorAndWarningClassesDiffer();
    WithClassAppend(es, ws, ErrorClassName);
    WithClassAppend(es, ws, WarningClassName);
    WithClassOfCreated(ExplanationsOf(errors), ErrorClassName, ErrorClassName);
    WithClassOfCreated(ExplanationsOf(errors), ErrorClassName, WarningClassName);
    WithClassOfCreated(ExplanationsOf(warnings), WarningClassName, ErrorClassName);
    WithClassOfCreated(ExplanationsOf(warnings), WarningClassName, WarningClassName);
  }

  /** Every error marker comes before every warning marker. */
  lemma ErrorMarkersPrecedeWarnings(errors: Option<QueryValidationState>, warnings: Option<QueryValidationState>)
    ensures var markers := GetMarkers(errors, warnings);
            forall i, j :: 0 <= i < |markers| && 0 <= j < |markers|
                        && markers[i].className == ErrorClassName && markers[j].className == WarningClassName
                        ==> i < j
  {
  }

  /** The props of the query input; only the `disabled` discriminant matters here. */
  datatype Props = Props(disabled: bool, value: string)

  /** `isDisabledInput`. */
  predicate IsDisabledInput(props: Props) {
    props.disabled
  }

  /** `isEnabledInput`: exactly the inputs that are not disabled. */
  function IsEnabledInput(props: Props): (enabled: bool)
    ensures enabled <==> !IsDisabledInput(props)
  {
    !props.disabled
  }
}
