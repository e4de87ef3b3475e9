/** Order records, validation of a submitted order form, and the three
    administrator actions, as functions on the list of orders. */
module Orders {
  import opened Pricing

  datatype Option<T> = None | Some(value: T)

  datatype Result<T, E> = Ok(value: T) | Err(error: E)

  /** Order status as written by the intake form and the admin panel. */
  datatype Status = Pending | Paid | Delivered

  /** How the customer hands over the scene: as an uploaded file or as a
      download link. */
  datatype Mode = FileUpload | ExternalLink

  /** A file the customer uploaded; only its name is recorded. */
  datatype UploadedFile = UploadedFile(name: string)

  /** What the form holds for the chosen mode: in upload mode the file
      widget may be empty and no link exists; in link mode no file exists. */
  datatype Attachment = Upload(file: Option<UploadedFile>) | Link(url: string)

  /** The fields of the order form at the moment it is submitted. */
  datatype OrderForm = OrderForm(
    name: string,
    email: string,
    attachment: Attachment,
    resolution: string,
    numRenders: int,
    note: string)

  /** One stored order.  `finalLink` is absent until the order is delivered;
      `dueDay` is a day number (the creation day plus the deadline). */
  datatype Order = Order(
    orderId: string,
    name: string,
    email: string,
    mode: Mode,
    fileName: string,
    externalLink: string,
    resolution: string,
    numRenders: int,
    price: nat,
    deadlineDays: int,
    dueDay: int,
    note: string,
    status: Status,
    finalLink: Option<string>)

  /** Why a submission was refused, in the order the checks are made. */
  datatype SubmitError = MissingNameOrEmail | MissingFile | MissingLink

  function ModeOf(a: Attachment): Mode
  {
    match a
    case Upload(_) => FileUpload
    case Link(_) => ExternalLink
  }

  /** The form's checks, tried in turn: name and email first, then the file
      (upload mode) or the link (link mode).  None means accepted. */
  function CheckForm(form: OrderForm): (err: Option<SubmitError>)
    ensures err == None <==>
      form.name != "" && form.email != "" &&
      (form.attachment.Upload? ==> form.attachment.file.Some?) &&
      (form.attachment.Link? ==> form.attachment.url != "")
    ensures err == Some(MissingNameOrEmail) <==> form.name == "" || form.email == ""
    ensures err == Some(MissingFile) <==>
      form.name != "" && form.email != "" && form.attachment == Upload(None)
    ensures err == Some(MissingLink) <==>
      form.name != "" && form.email != "" && form.attachment == Link("")
  {
    if form.name == "" || form.email == "" then Some(MissingNameOrEmail)
    else match form.attachment
      case Upload(f) => if f.None? then Some(MissingFile) else None
      case Link(url) => if url == "" then Some(MissingLink) else None
  }

  /** The record stored for an accepted form; the identifier and the current
      day are supplied by the caller. */
  function NewOrder(form: OrderForm, orderId: string, today: int): Order
  {
    var days := CalcDeadline(form.numRenders);
    Order(
      orderId := orderId,
      name := form.name,
      email := form.email,
      mode := ModeOf(form.attachment),
      fileName := if form.attachment.Upload? && form.attachment.file.Some?
                  then form.attachment.file.value.name else "",
      externalLink := if form.attachment.Link? then form.attachment.url else "",
      resolution := form.resolution,
      numRenders := form.numRenders,
      price := CalcPrice(form.resolution),
      deadlineDays := days,
      dueDay := today + days,
      note := form.note,
      status := Pending,
      finalLink := None)
  }

  /** Submitting the form: either the checks refuse it, or the new record. */
  function Intake(form: OrderForm, orderId: string, today: int): (r: Result<Order, SubmitError>)
    ensures r.Err? <==> CheckForm(form).Some?
    ensures r.Err? ==> Some(r.error) == CheckForm(form)
    ensures r.Ok? ==> r.value.status == Pending && r.value.orderId == orderId
    ensures r.Ok? ==> r.value == NewOrder(form, orderId, today)
  {
    match CheckForm(form)
    case Some(e) => Err(e)
    case None => Ok(NewOrder(form, orderId, today))
  }

  /** A new record carries the supplied customer and job fields, the price
      and deadline computed from them, status pending and no final link; the
      file name is the uploaded file's name, or empty when no file was
      uploaded, and the external link is empty in upload mode. */
  lemma NewOrderFields(form: OrderForm, orderId: string, today: int)
    ensures var o := NewOrder(form, orderId, today);
      o.orderId == orderId && o.name == form.name && o.email == form.email &&
      o.resolution == form.resolution && o.numRenders == form.numRenders &&
      o.note == form.note &&
      o.price == CalcPrice(form.resolution) &&
      o.deadlineDays == CalcDeadline(form.numRenders) &&
      o.dueDay == today + o.deadlineDays &&
      o.status == Pending && o.finalLink == None &&
      (o.fileName != "" ==> form.attachment.Upload? && form.attachment.file.Some?) &&
      (form.attachment.Upload? && form.attachment.file.Some? ==>
         o.fileName == form.attachment.file.value.name) &&
      (form.attachment.Upload? ==> o.mode == FileUpload && o.externalLink == "") &&
      (form.attachment.Link? ==> o.mode == ExternalLink && o.fileName == "" &&
                                 o.externalLink == form.attachment.url)
  {
  }

  /** An accepted form with a slider value (1 to 30 renders) and a
      selectable resolution yields a positive price and a deadline of 3 to
      30 days, due that many days after submission. */
  lemma AcceptedOrderBounds(form: OrderForm, orderId: string, today: int)
    requires Intake(form, orderId, today).Ok?
    requires 1 <= form.numRenders <= 30 && form.resolution in Resolutions
    ensures var o := Intake(form, orderId, today).value;
      o.price > 0 && 3 <= o.deadlineDays <= 30 && today + 3 <= o.dueDay <= today + 30
  {
  }

  /** No two orders share an identifier (identifiers are fresh UUIDs). */
  ghost predicate UniqueIds(s: seq<Order>)
  {
    forall i, j :: 0 <= i < j < |s| ==> s[i].orderId != s[j].orderId
  }

  /** Position of the first order carrying identifier `id`, scanning from
      the front of the list as the admin panel does. */
  function IndexOf(s: seq<Order>, id: string): (k: Option<nat>)
    ensures k.Some? ==> k.value < |s| && s[k.value].orderId == id &&
                        forall j :: 0 <= j < k.value ==> s[j].orderId != id
    ensures k.None? ==> forall j :: 0 <= j < |s| ==> s[j].orderId != id
    decreases |s|
  {
    if |s| == 0 then None
    else if s[0].orderId == id then Some(0)
    else match IndexOf(s[1..], id)
      case None => None
      case Some(k) => Some(k + 1)
  }

  /** Mark paid: the order with identifier `id` gets status paid. */
  function PayOrder(s: seq<Order>, id: string): seq<Order>
  {
    match IndexOf(s, id)
    case None => s
    case Some(k) => s[k := s[k].(status := Paid)]
  }

  /** Deliver: the order with identifier `id` gets the final link and
      status delivered. */
  function DeliverOrder(s: seq<Order>, id: string, link: string): seq<Order>
  {
    match IndexOf(s, id)
    case None => s
    case Some(k) => s[k := s[k].(finalLink := Some(link), status := Delivered)]
  }

  /** Removal of the first element EQUAL to `x`, the way a list removes a
      value. */
  function RemoveFirst(s: seq<Order>, x: Order): (r: seq<Order>)
    requires x in s
    ensures |r| == |s| - 1
    decreases |s|
  {
    if s[0] == x then s[1..]
    else [s[0]] + RemoveFirst(s[1..], x)
  }

  /** Delete: the order with identifier `id` is removed from the list by
      value. */
  function DeleteOrder(s: seq<Order>, id: string): seq<Order>
  {
    match IndexOf(s, id)
    case None => s
    case Some(k) => RemoveFirst(s, s[k])
  }

  /** Removing the first element equal to `x` takes out position k when k is
      the first place `x` occurs, and keeps everything else in order. */
  lemma {:induction false} RemoveFirstAt(s: seq<Order>, x: Order, k: nat)
    requires k < |s| && s[k] == x
    requires forall j :: 0 <= j < k ==> s[j] != x
    ensures RemoveFirst(s, x) == s[..k] + s[k + 1..]
    decreases k
  {
    if k > 0 {
      var t := s[1..];
      RemoveFirstAt(t, x, k - 1);
      calc {
        RemoveFirst(s, x);
        [s[0]] + RemoveFirst(t, x);
        [s[0]] + (t[..k - 1] + t[k..]);
        { assert t[..k - 1] == s[1..k] && t[k..] == s[k + 1..]; }
        [s[0]] + (s[1..k] + s[k + 1..]);
        { assert [s[0]] + s[1..k] == s[..k]; }
        s[..k] + s[k + 1..];
      }
    }
  }

  /** Removing by value takes out one occurrence of `x` and keeps every
      other element, with its multiplicity. */
  lemma {:induction false} RemoveFirstMultiset(s: seq<Order>, x: Order)
    requires x in s
    ensures multiset(RemoveFirst(s, x)) == multiset(s) - multiset{x}
    decreases |s|
  {
    assert s == [s[0]] + s[1..];
    if s[0] != x {
      RemoveFirstMultiset(s[1..], x);
    }
  }

  /** Mark paid changes exactly the status of the order named `id`, to paid
      whatever it was before; every other order and every other field is
      left as it was.  With an unknown `id` nothing changes. */
  lemma PayOrderSpec(s: seq<Order>, id: string)
    requires UniqueIds(s)
    ensures var r := PayOrder(s, id);
      |r| == |s| &&
      forall j :: 0 <= j < |s| ==>
        r[j] == if s[j].orderId == id then s[j].(status := Paid) else s[j]
  {
  }

  /** Deliver sets the final link and the delivered status of the order
      named `id` and nothing else. */
  lemma DeliverOrderSpec(s: seq<Order>, id: string, link: string)
    requires UniqueIds(s)
    ensures var r := DeliverOrder(s, id, link);
      |r| == |s| &&
      forall j :: 0 <= j < |s| ==>
        r[j] == if s[j].orderId == id
                then s[j].(finalLink := Some(link), status := Delivered) else s[j]
  {
  }

  /** Delete removes exactly the order named `id`: the list shrinks by one,
      the other orders keep their relative order, and `id` no longer occurs.
      With an unknown `id` nothing changes. */
  lemma {:induction false} DeleteOrderSpec(s: seq<Order>, id: string)
    ensures var r := DeleteOrder(s, id);
      match IndexOf(s, id)
      case None => r == s
      case Some(k) => r == s[..k] + s[k + 1..] && |r| == |s| - 1
  {
    match IndexOf(s, id)
    case None =>
    case Some(k) =>
      forall j | 0 <= j < k ensures s[j] != s[k] {
        assert s[j].orderId != id;
      }
      RemoveFirstAt(s, s[k], k);
  }

  /** After a delete, no order with identifier `id` remains when identifiers
      were unique. */
  lemma {:induction false} DeleteRemovesId(s: seq<Order>, id: string)
    requires UniqueIds(s)
    ensures var r := DeleteOrder(s, id);
      UniqueIds(r) && forall j :: 0 <= j < |r| ==> r[j].orderId != id
  {
    DeleteOrderSpec(s, id);
    var r := DeleteOrder(s, id);
    match IndexOf(s, id)
    case None =>
    case Some(k) =>
      forall j | 0 <= j < |r| ensures r[j] == s[if j < k then j else j + 1] {
      }
      forall j | 0 <= j < |r| ensures r[j].orderId != id {
        if j >= k { assert s[k].orderId != s[j + 1].orderId; }
      }
  }

  /** Mark paid keeps identifiers unique. */
  lemma PayKeepsIds(s: seq<Order>, id: string)
    requires UniqueIds(s)
    ensures UniqueIds(PayOrder(s, id))
  {
  }

  /** Deliver keeps identifiers unique. */
  lemma DeliverKeepsIds(s: seq<Order>, id: string, link: string)
    requires UniqueIds(s)
    ensures UniqueIds(DeliverOrder(s, id, link))
  {
  }

  /** Marking an order paid twice is the same as marking it once, and so is
      delivering the same link twice. */
  lemma UpdatesIdempotent(s: seq<Order>, id: string, link: string)
    ensures PayOrder(PayOrder(s, id), id) == PayOrder(s, id)
    ensures DeliverOrder(DeliverOrder(s, id, link), id, link) == DeliverOrder(s, id, link)
  {
  }

  /** Appending an order with a fresh identifier keeps identifiers unique. */
  lemma AppendKeepsIds(s: seq<Order>, o: Order)
    requires UniqueIds(s)
    requires forall j :: 0 <= j < |s| ==> s[j].orderId != o.orderId
    ensures UniqueIds(s + [o])
  {
  }
}
