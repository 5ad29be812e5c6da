/** The production-order records returned by the order service and the detail
    message the bot sends for each of them. */
module Orders {
  import opened Wrappers
  import opened JsText

  /** The nine milestone dates of an order line; None stands for `null`. */
  datatype Milestones = Milestones(
    elecMechDesign: Option<string>,      // fechaf0
    approval: Option<string>,            // fechaf1
    completion: Option<string>,          // fechaf2
    purchasing: Option<string>,          // fechaf3
    lmfCons: Option<string>,             // fechaf4
    mechDesign: Option<string>,          // fechaf5
    metalwork: Option<string>,           // fechaf6
    electricalDelivery: Option<string>,  // fechaf7
    dispatch: Option<string>)            // fechaf8

  /** One order line (`PedidoDetalle`). */
  datatype Item = Item(
    project: string,         // tdespacho
    number: string,          // num
    description: string,     // nom
    quantity: int,           // cant
    pending: int,            // pend
    productionOrder: int,    // opId
    dates: Milestones)

  /** The milestones in the order the detail message lists them. */
  function DateList(m: Milestones): (ds: seq<Option<string>>)
    ensures |ds| == 9
    ensures ds[0] == m.elecMechDesign && ds[8] == m.dispatch
  {
    [m.elecMechDesign, m.approval, m.completion, m.purchasing, m.lmfCons,
     m.mechDesign, m.metalwork, m.electricalDelivery, m.dispatch]
  }

  /** A milestone as shown: the literal "N/A", or the `es-ES` short date of
      the raw value (the locale formatter itself is not modelled). */
  datatype Shown = NotAvailable | ShortDate(raw: string)

  /** `formatDate`: a falsy value (`null` or the empty string) shows as
      "N/A"; any other string goes to the date formatter, which never throws. */
  function ShowDate(d: Option<string>): (r: Shown)
    ensures r.NotAvailable? <==> (d == None || d == Some(""))
    ensures r.ShortDate? ==> d == Some(r.raw)
  {
    match d
    case None => NotAvailable
    case Some(raw) => if raw == "" then NotAvailable else ShortDate(raw)
  }

  /** The fields of one detail message. */
  datatype Detail = Detail(
    project: string,
    number: string,
    description: string,
    quantity: int,
    pending: int,
    productionOrder: int,
    milestones: seq<Shown>)

  /** The nine milestones as the detail message shows them, in order. */
  function ShowMilestones(m: Milestones): (r: seq<Shown>)
    ensures |r| == 9
    ensures forall i :: 0 <= i < 9 ==> r[i] == ShowDate(DateList(m)[i])
  {
    [ShowDate(m.elecMechDesign), ShowDate(m.approval), ShowDate(m.completion),
     ShowDate(m.purchasing), ShowDate(m.lmfCons), ShowDate(m.mechDesign),
     ShowDate(m.metalwork), ShowDate(m.electricalDelivery), ShowDate(m.dispatch)]
  }

  /** The detail message for one order line: project and order number trimmed,
      the description as stored, and the nine milestones in order. */
  function Render(it: Item): Detail {
    Detail(Trim(it.project), Trim(it.number), it.description, it.quantity,
           it.pending, it.productionOrder, ShowMilestones(it.dates))
  }

  /** What a detail message shows of its line: project and order number
      without surrounding white space, the other fields as they are, and each
      of the nine milestones in order, "N/A" exactly when the date is null or
      empty. */
  lemma RenderShowsLine(it: Item)
    ensures var d := Render(it);
      && IsTrimOf(d.project, it.project) && IsTrimOf(d.number, it.number)
      && d.description == it.description
      && d.quantity == it.quantity && d.pending == it.pending
      && d.productionOrder == it.productionOrder
      && |d.milestones| == 9
      && (forall i :: 0 <= i < 9 ==> d.milestones[i] == ShowDate(DateList(it.dates)[i]))
      && (forall i :: 0 <= i < 9 ==> (d.milestones[i].NotAvailable? <==> DateList(it.dates)[i] in {None, Some("")}))
  {
    TrimTrims(it.project);
    TrimTrims(it.number);
  }
}
