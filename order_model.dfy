/** The Order schema: its status enumeration with default, the nullable
    processed date, and the `beforeUpdate` hook. */
module OrderModel {
  import opened Base

  /** ENUM('Pendente', 'Processando', 'Concluído'), NOT NULL: a row cannot
      hold any other status, nor none. */
  datatype Status = Pendente | Processando | Concluido

  function Label(s: Status): string
  {
    match s
    case Pendente => "Pendente"
    case Processando => "Processando"
    case Concluido => "Concluído"
  }

  /** The enumeration in declaration order, as the handlers' `allowedStatusValues`. */
  const Allowed: seq<Status> := [Pendente, Processando, Concluido]

  function AllowedLabels(): (r: seq<string>)
    ensures |r| == |Allowed| && forall i :: 0 <= i < |r| ==> r[i] == Label(Allowed[i])
  {
    ["Pendente", "Processando", "Concluído"]
  }

  /** `allowedStatusValues.includes(status)`, returning the status it names. */
  function ParseStatus(v: Option<string>): (r: Option<Status>)
    ensures r.Some? <==> v.Some? && v.value in AllowedLabels()
    ensures r.Some? ==> Label(r.value) == v.value
  {
    if v == Some("Pendente") then Some(Pendente)
    else if v == Some("Processando") then Some(Processando)
    else if v == Some("Concluído") then Some(Concluido)
    else None
  }

  /** Every status is accepted under its own label and under no other. */
  lemma ParseLabel(s: Status, v: string)
    ensures ParseStatus(Some(v)) == Some(s) <==> v == Label(s)
  {
  }

  /** `xs.join(sep)`. */
  function Join(xs: seq<string>, sep: string): string
  {
    if xs == [] then ""
    else if |xs| == 1 then xs[0]
    else xs[0] + sep + Join(xs[1..], sep)
  }

  /** The allowed values as the 400 messages list them. */
  function AllowedList(): (s: string)
    ensures s == "Pendente, Processando, Concluído"
  {
    Join(AllowedLabels(), ", ")
  }

  /** An Order row. `dateProcessed` is the only date that may be null. */
  datatype OrderRow = OrderRow(
    id: int, userId: int, client: string, status: Status,
    dateEntry: Timestamp, dateProcessed: Option<Timestamp>)

  /** The `beforeUpdate` hook. `previous` is the status the row was loaded
      with, so `order.changed('status')` is `order.status != previous`. When it
      acts, the hook builds a copy of the row with `dateProcessed = now` and
      returns it; the row it was given is a value and stays as it was. */
  function BeforeUpdate(previous: Status, order: OrderRow, now: Timestamp): (r: Option<OrderRow>)
    ensures r.Some? <==> order.status != previous && order.status == Concluido
    ensures r.Some? ==> r.value.dateProcessed == Some(now)
    ensures r.Some? ==> r.value.(dateProcessed := order.dateProcessed) == order
  {
    if order.status != previous && order.status == Concluido then
      Some(order.(dateProcessed := Some(now)))
    else
      None
  }

  /** What the hook evidently means to do: save the row with the processed
      date stamped when the status has just become Concluído. */
  function StampOnConclusion(previous: Status, order: OrderRow, now: Timestamp): (r: OrderRow)
    ensures r.dateProcessed == (if order.status != previous && order.status == Concluido
                                then Some(now) else order.dateProcessed)
    ensures r.(dateProcessed := order.dateProcessed) == order
  {
    match BeforeUpdate(previous, order, now)
    case Some(copy) => copy
    case None => order
  }
}
