/** The print action on a selection of payments: drafts are dropped, an
    empty result is refused with a validation error, and otherwise the
    report of the remaining payments is rendered. */
module Action {
  import opened Payments
  import opened Grouping
  import opened Grid
  import opened Layout

  const NoConfirmedMessage := "No hay pagos confirmados para imprimir."

  /** What the action ends in: the rendered sheet, or the validation error
      raised to the user. */
  datatype Outcome = Rendered(sheet: map<Pos, Cell>) | ValidationError(message: string)

  /** `action_print_payments_report` up to the rendered sheet. */
  method PrintPaymentsReport(selection: seq<Payment>) returns (r: Outcome)
    ensures r.ValidationError? <==> forall i :: 0 <= i < |selection| ==> selection[i].state == Draft
    ensures r.ValidationError? ==> r.message == NoConfirmedMessage
    ensures r.Rendered? ==> r.sheet == Report(Confirmed(selection))
  {
    var confirmed := Confirmed(selection);
    if confirmed == [] {
      return ValidationError(NoConfirmedMessage);
    }
    var sheet := GenerateExcel(confirmed);
    return Rendered(sheet);
  }

  /** Every payment the rendered report groups is a non-draft payment of the
      selection, and every non-draft payment of the selection is in exactly
      as many times as it was selected. */
  lemma ReportedPaymentsConfirmed(selection: seq<Payment>)
    ensures forall p :: multiset(Flatten(Groups(Confirmed(selection))))[p] ==
              if p.state != Draft then multiset(selection)[p] else 0
  {
    GroupingIsPartition(Confirmed(selection));
    ConfirmedCount(selection);
  }
}
