# ArchiRender order intake — a Dafny model

ArchiRender is a small web app for a rendering service. A customer fills in an
order form: name, email, the scene (an uploaded file or a download link), a
resolution tier, the number of renders and a note. The app prices the job,
computes a delivery deadline and appends a pending order to its order list. An
administrator then works through the list. Each order can be marked as paid,
delivered with a link to the final renders, or deleted.

The model has three modules:

- `Pricing` (`pricing.dfy`): the tier price lookup and the deadline step
  function, with their properties. The deadline is the render count rounded up
  to a multiple of 3. It never decreases as renders are added, and it stays
  within 3..30 days over the form's 1..30 range.
- `Orders` (`orders.dfy`): the form, the order record, the form checks, the
  construction of a new record, and the three admin actions as functions on the
  list of orders. Lemmas state what each action changes and what it leaves
  alone.
- `Store` (`store.dfy`): class `OrderBook`. Its `orders` field is the list the
  app loads, mutates and saves. `Submit` appends an order. `Locate` is the
  admin panel's scan over the list. `MarkPaid`, `Deliver` and `Delete` update
  the list in place. Each method is proved against the functions in `Orders`.
  Each one also keeps the class invariant `Valid()`: no two orders share an
  identifier.

Modelling choices:

- The order identifier (a fresh UUID in the app) and the current day are
  parameters. The due date is a day number: the current day plus the deadline.
- The form's upload-mode radio becomes `Attachment`. In upload mode the file
  widget may hold a file or nothing, and the link is always empty. In link mode
  no file exists and the link is free text. This matches lines 53-58 of
  `streamlit_app_1.py`.
- Status strings `"pending"`, `"paid"` and `"delivered"` become the `Status`
  enumeration. The two radio labels become `Mode`.
- An admin button press names its order by identifier, the key of its widget.
  The scan stops at the first order with that identifier. A delete then removes
  the first list element *equal* to that order, as Python's `list.remove`
  does. `RemoveFirstAt` proves that this is exactly the scanned position.
- Python's `(n-1)//3` floors. Dafny's `/` is Euclidean, which agrees with
  floor division for the positive divisor 3. So `CalcDeadline` matches
  `calc_deadline` for every integer, not only for the slider range.
- An unknown resolution is priced 0.
- The deadline for 7 renders is 9 days.

## Model

| member | source | states |
|---|---|---|
| Pricing.CalcPrice | streamlit_app_1.py:18-25 | "2-4K" costs 70, "4-6K" 100 and "8K" 120, each if and only if; every other string costs 0, and the function never fails |
| Pricing.SelectablePricesRise | streamlit_app_1.py:18-25 | every resolution the form offers has a positive price, and a later tier costs strictly more |
| Pricing.PriceIdentifiesTier | streamlit_app_1.py:18-25 | two resolutions with the same positive price are the same tier |
| Pricing.CalcDeadline | streamlit_app_1.py:27-28 | the deadline is a multiple of 3 with n <= deadline < n + 3 |
| Pricing.DeadlineIsRoundUp | streamlit_app_1.py:27-28 | any multiple of 3 in [n, n + 3) is the deadline, so the deadline is n rounded up to a multiple of 3 |
| Pricing.DeadlinePositive | streamlit_app_1.py:27-28 | one render or more gives a deadline of at least 3 days |
| Pricing.DeadlineMonotone | streamlit_app_1.py:27-28 | more renders never give a shorter deadline |
| Pricing.DeadlineStep | streamlit_app_1.py:27-28 | three more renders add exactly three days |
| Pricing.DeadlineInFormRange | streamlit_app_1.py:27-28 | for the slider's 1..30 renders the deadline lies in 3..30 days |
| Orders.CheckForm | streamlit_app_1.py:66-71 | a form passes if and only if name and email are non-empty and a file is present in upload mode or the link is non-empty in link mode; otherwise it names the first failing check |
| Orders.Intake | streamlit_app_1.py:65-96 | a submission is refused exactly when a check fails, with that check's error; an accepted one yields the new record, pending, with the supplied identifier |
| Orders.NewOrderFields | streamlit_app_1.py:73-95 | a new record carries the supplied fields, the computed price, deadline and due day, and status pending; the file name is the uploaded file's name, or empty without an upload, and the link is empty in upload mode |
| Orders.AcceptedOrderBounds | streamlit_app_1.py:73-75 | an accepted form from the widgets' ranges gets a positive price and a due day 3..30 days ahead |
| Orders.AppendKeepsIds | streamlit_app_1.py:76-95 | appending a record with a fresh identifier keeps identifiers unique |
| Orders.IndexOf | streamlit_app_1.py:115-116 | finds the first order with the identifier, or reports that none has it |
| Orders.RemoveFirst | streamlit_app_1.py:135 | removing a present value shortens the list by one |
| Orders.RemoveFirstMultiset | streamlit_app_1.py:135 | removal by value takes out one occurrence and keeps all other elements |
| Orders.RemoveFirstAt | streamlit_app_1.py:135 | removal by value takes out the first position holding the value and keeps the rest in order |
| Orders.PayOrderSpec | streamlit_app_1.py:120-122 | mark paid sets the named order's status to paid from any status; no other field or order changes |
| Orders.DeliverOrderSpec | streamlit_app_1.py:127-130 | deliver sets the named order's final link and status delivered from any status; no other order changes |
| Orders.DeleteOrderSpec | streamlit_app_1.py:134-136 | delete removes exactly the named order: the list shrinks by one and the rest keep their order; an unknown identifier changes nothing |
| Orders.DeleteRemovesId | streamlit_app_1.py:134-136 | after a delete no order carries the identifier, and identifiers stay unique |
| Orders.PayKeepsIds | streamlit_app_1.py:120-122 | mark paid keeps identifiers unique |
| Orders.DeliverKeepsIds | streamlit_app_1.py:127-130 | deliver keeps identifiers unique |
| Orders.UpdatesIdempotent | streamlit_app_1.py:120-130 | repeating mark paid, or repeating a delivery with the same link, changes nothing more |
| Store.OrderBook.constructor | streamlit_app_1.py:114 | the store opens on the saved orders |
| Store.OrderBook.Submit | streamlit_app_1.py:65-96 | a refused form leaves the list unchanged; an accepted one appends exactly the new record at the end, with earlier orders untouched |
| Store.OrderBook.Locate | streamlit_app_1.py:115-116 | the scan returns the first position whose order has the identifier, or none |
| Store.OrderBook.MarkPaid | streamlit_app_1.py:120-122 | only the named order's status changes, to paid |
| Store.OrderBook.Deliver | streamlit_app_1.py:127-130 | only the named order changes: its final link and its status delivered |
| Store.OrderBook.Delete | streamlit_app_1.py:134-136 | the named order is removed, the others keep their order, and the identifier no longer occurs |

## Left out

- JSON persistence is not modelled (`load_orders`, `save_orders` and the creation of an empty file at start-up). It is file I/O. The store is the in-memory `orders` field.
- UUID generation and `datetime.utcnow()` are parameters (`orderId`, `today`). ISO formatting of the due date is left out.
- `send_email_simulation` is left out. It only displays a message.
- The Streamlit widgets, tabs, expanders, success and error messages, and `experimental_rerun` are left out. So is the `"admin123"` password check, which is a single string comparison in front of the admin panel.
- Streamlit's error on two widgets with the same key is not modelled. Two orders with the same identifier would raise it. `Valid()` rules this case out.
- `streamlit_app.py` is not part of this model. It is a demo page with a chart and a payment-gateway call.
- Store.OrderBook.Submit: requires the new identifier to be absent from the list. The model assumes a fresh UUID here.
