/** The student's borrow-request page: the pure helpers its markup evaluates
    (badge class, status label, input bounds, POST payload, list envelope) and
    the page state that its handlers update through React setters. The network,
    local storage and the clock are parameters: each handler is given the reply
    its `fetch` would have produced, and "today" is given as a date string. */
module StudentRequests {
  import opened JsValues

  // ---------------------------------------------------------------------------
  // Entities

  datatype EquipmentRef = EquipmentRef(id: int, name: string)

  /** A request as the server lists it; the page only reads it. */
  datatype BorrowRequest = BorrowRequest(
    id: int,
    equipment: EquipmentRef,
    quantity: int,
    purpose: string,
    status: string,
    borrowFrom: string,
    borrowUntil: string,
    createdAt: string)

  datatype Equipment = Equipment(id: int, name: string, availableQuantity: int)

  /** The dialog's draft. `equipment` is the value of the selected option
      (`""` or `String(id)`), `quantity` what `Number` made of the number input. */
  datatype FormDraft = FormDraft(
    equipment: string,
    quantity: JsNumber,
    purpose: string,
    borrowFrom: string,
    borrowUntil: string)

  /** The JSON object the page POSTs to create a request. */
  datatype Payload = Payload(
    equipment: JsNumber,
    quantity: JsNumber,
    purpose: string,
    borrowFrom: string,
    borrowUntil: string)

  /** The draft the page starts with and returns to on reset. */
  const InitialDraft := FormDraft("", Num(1), "", "", "")

  // ---------------------------------------------------------------------------
  // Status badge and label

  const PendingClass := "bg-yellow-500/10 text-yellow-600 border-yellow-500/20"
  const ApprovedClass := "bg-green-500/10 text-green-600 border-green-500/20"
  const RejectedClass := "bg-red-500/10 text-red-600 border-red-500/20"
  const IssuedClass := "bg-blue-500/10 text-blue-600 border-blue-500/20"
  const NeutralClass := "bg-gray-500/10 text-gray-600 border-gray-500/20"

  predicate IsKnownStatus(status: string)
  {
    status == "pending" || status == "approved" || status == "rejected"
    || status == "issued" || status == "returned"
  }

  /** `getStatusColor`: the badge classes for a request status. */
  function StatusColor(status: string): (c: string)
    ensures status == "pending" ==> c == PendingClass
    ensures status == "approved" ==> c == ApprovedClass
    ensures status == "rejected" ==> c == RejectedClass
    ensures status == "issued" ==> c == IssuedClass
    ensures status == "returned" || !IsKnownStatus(status) ==> c == NeutralClass
  {
    match status
    case "pending" => PendingClass
    case "approved" => ApprovedClass
    case "rejected" => RejectedClass
    case "issued" => IssuedClass
    case "returned" => NeutralClass
    case _ => NeutralClass
  }

  /** A status shares the `returned` badge exactly when it is `returned` or
      unknown; the four other known statuses each have a badge of their own. */
  lemma StatusColorClasses(s: string, t: string)
    ensures StatusColor(s) == StatusColor("returned") <==> s == "returned" || !IsKnownStatus(s)
    ensures IsKnownStatus(s) && IsKnownStatus(t) && s != t && s != "returned" ==> StatusColor(s) != StatusColor(t)
  {
  }

  /** `toUpperCase` on one ASCII character. */
  function UpperCase(c: char): (u: char)
    ensures 'a' <= c <= 'z' ==> 'A' <= u <= 'Z' && u as int - 'A' as int == c as int - 'a' as int
    ensures !('a' <= c <= 'z') ==> u == c
  {
    if 'a' <= c <= 'z' then (c as int - 'a' as int + 'A' as int) as char else c
  }

  /** `status.charAt(0).toUpperCase() + status.slice(1)`. */
  function StatusLabel(status: string): (shown: string)
    ensures |shown| == |status|
    ensures status != [] ==> shown[0] == UpperCase(status[0])
    ensures forall i :: 1 <= i < |status| ==> shown[i] == status[i]
  {
    if status == [] then [] else [UpperCase(status[0])] + status[1..]
  }

  /** The label shown for an approved request. */
  lemma ApprovedLabel()
    ensures StatusLabel("approved") == "Approved"
  {
  }

  // ---------------------------------------------------------------------------
  // Input bounds

  /** The number input's `min`. */
  const QuantityMin := 1

  /** Position of the first equipment whose `String(id)` equals `selected`,
      or `|list|` when there is none: the scan `Array.prototype.find` makes. */
  function FirstSelectedIndex(list: seq<Equipment>, selected: string): (k: nat)
    ensures k <= |list|
    ensures forall j :: 0 <= j < k ==> IdString(list[j].id) != selected
    ensures k < |list| ==> IdString(list[k].id) == selected
  {
    if list == [] then 0
    else if IdString(list[0].id) == selected then 0
    else 1 + FirstSelectedIndex(list[1..], selected)
  }

  /** `equipmentList.find((e) => String(e.id) === selected)`. */
  function FindSelected(list: seq<Equipment>, selected: string): (r: Option<Equipment>)
    ensures r.None? <==> forall e :: e in list ==> IdString(e.id) != selected
    ensures r.Some? ==> r.value in list && IdString(r.value.id) == selected
    ensures r.Some? ==> r.value == list[FirstSelectedIndex(list, selected)]
  {
    var k := FirstSelectedIndex(list, selected);
    if k < |list| then Some(list[k]) else None
  }

  /** The number input's `max`: `find(...)?.available_quantity || 1`. */
  function QuantityMax(list: seq<Equipment>, selected: string): (max: int)
    ensures max != 0
    ensures (forall e :: e in list ==> IdString(e.id) != selected) ==> max == 1
    ensures forall k :: 0 <= k < |list| && IdString(list[k].id) == selected
                        && (forall j :: 0 <= j < k ==> IdString(list[j].id) != selected)
                        ==> max == (if list[k].availableQuantity == 0 then 1 else list[k].availableQuantity)
  {
    match FindSelected(list, selected)
    case None => 1
    case Some(e) => if e.availableQuantity == 0 then 1 else e.availableQuantity
  }

  /** Choosing the option of an equipment sets the bound to that equipment's
      availability (1 when none is left), provided no earlier entry shares its id. */
  lemma QuantityMaxOfSelection(list: seq<Equipment>, k: nat)
    requires k < |list|
    requires forall j :: 0 <= j < k ==> list[j].id != list[k].id
    ensures QuantityMax(list, IdString(list[k].id))
            == (if list[k].availableQuantity == 0 then 1 else list[k].availableQuantity)
  {
    forall j | 0 <= j < k
      ensures IdString(list[j].id) != IdString(list[k].id)
    {
      if IdString(list[j].id) == IdString(list[k].id) {
        IdStringInjective(list[j].id, list[k].id);
      }
    }
  }

  /** `borrow_from`'s `min`: today. */
  function BorrowFromMin(today: string): (m: string)
    ensures m == today
  {
    today
  }

  /** `borrow_until`'s `min`: `formData.borrow_from || today`. */
  function BorrowUntilMin(draft: FormDraft, today: string): (m: string)
    ensures m == draft.borrowFrom || m == today
    ensures m == today <==> draft.borrowFrom == "" || draft.borrowFrom == today
    ensures today != "" ==> m != ""
  {
    if draft.borrowFrom != "" then draft.borrowFrom else today
  }

  /** Order of `YYYY-MM-DD` date strings, which is their character order. */
  predicate DateLeq(a: string, b: string)
  {
    a == [] || (b != [] && (a[0] < b[0] || (a[0] == b[0] && DateLeq(a[1..], b[1..]))))
  }

  lemma {:induction false} DateLeqTransitive(a: string, b: string, c: string)
    requires DateLeq(a, b) && DateLeq(b, c)
    ensures DateLeq(a, c)
  {
    if a != [] && a[0] == b[0] && b[0] == c[0] {
      DateLeqTransitive(a[1..], b[1..], c[1..]);
    }
  }

  /** What the browser's constraint validation demands of the form before it
      lets the submit event through: every field filled in, the quantity an
      integer between the two bounds, each date no earlier than its `min`. */
  predicate WithinBounds(draft: FormDraft, list: seq<Equipment>, today: string): (ok: bool)
    ensures ok ==> draft.equipment != "" && draft.purpose != "" && draft.borrowFrom != "" && draft.borrowUntil != ""
    ensures ok ==> draft.quantity.Num? && 1 <= draft.quantity.n
    ensures ok && FindSelected(list, draft.equipment).None? ==> draft.quantity == Num(1)
  {
    && draft.equipment != "" && draft.purpose != ""
    && draft.borrowFrom != "" && draft.borrowUntil != ""
    && draft.quantity.Num?
    && QuantityMin <= draft.quantity.n <= QuantityMax(list, draft.equipment)
    && DateLeq(BorrowFromMin(today), draft.borrowFrom)
    && DateLeq(BorrowUntilMin(draft, today), draft.borrowUntil)
  }

  /** A draft within the bounds has `today <= borrow_from <= borrow_until`
      and a quantity no larger than the selected equipment's availability. */
  lemma WithinBoundsOrdersDates(draft: FormDraft, list: seq<Equipment>, today: string)
    requires WithinBounds(draft, list, today)
    ensures DateLeq(today, draft.borrowFrom) && DateLeq(draft.borrowFrom, draft.borrowUntil)
    ensures DateLeq(today, draft.borrowUntil)
    ensures FindSelected(list, draft.equipment).Some? ==>
              draft.quantity.n <= FindSelected(list, draft.equipment).value.availableQuantity
              || FindSelected(list, draft.equipment).value.availableQuantity == 0
  {
    DateLeqTransitive(today, draft.borrowFrom, draft.borrowUntil);
  }

  // ---------------------------------------------------------------------------
  // Payload and envelope

  /** `{ ...formData, equipment: Number(formData.equipment) }`. */
  function BuildPayload(d: FormDraft): (p: Payload)
    ensures p.quantity == d.quantity && p.purpose == d.purpose
    ensures p.borrowFrom == d.borrowFrom && p.borrowUntil == d.borrowUntil
    ensures d.equipment == "" ==> p.equipment == Num(0)
    ensures forall id :: d.equipment == IdString(id) ==> p.equipment == Num(id)
  {
    NumberOfEveryIdString();
    Payload(ToNumber(d.equipment), d.quantity, d.purpose, d.borrowFrom, d.borrowUntil)
  }

  /** The payload for a draft whose option was built from `id` carries `id`
      itself, and every other field of the draft unchanged and unchecked. */
  lemma PayloadOfSelection(d: FormDraft, id: int)
    requires d.equipment == IdString(id)
    ensures BuildPayload(d) == Payload(Num(id), d.quantity, d.purpose, d.borrowFrom, d.borrowUntil)
  {
  }

  /** The draft of the worked example, as the server receives it. */
  lemma ExamplePayload()
    ensures BuildPayload(FormDraft("3", Num(2), "Lab demo", "2025-06-01", "2025-06-05"))
            == Payload(Num(3), Num(2), "Lab demo", "2025-06-01", "2025-06-05")
  {
  }

  /** A parsed list body: a bare array, or an object whose `results` is
      present and truthy (`Some`) or missing or falsy (`None`). */
  datatype Body<T> = Bare(items: seq<T>) | Envelope(results: Option<seq<T>>)

  /** What a list setter stores: an array, or the envelope object itself. */
  datatype Listing<T> = Items(items: seq<T>) | NonList

  /** `data.results || data`. */
  function Normalise<T>(b: Body<T>): (l: Listing<T>)
    ensures l.Items? <==> b.Bare? || b.results.Some?
    ensures b.Bare? ==> l.items == b.items
    ensures b.Envelope? && b.results.Some? ==> l.items == b.results.value
  {
    match b
    case Bare(xs) => Items(xs)
    case Envelope(Some(xs)) => Items(xs)
    case Envelope(None) => NonList
  }

  /** The same items, bare or wrapped, normalise to the same list (an empty
      `results` array is truthy and is used as it is). */
  lemma NormaliseEitherShape<T>(xs: seq<T>)
    ensures Normalise(Bare(xs)) == Normalise(Envelope(Some(xs))) == Items(xs)
  {
  }

  // ---------------------------------------------------------------------------
  // Network replies

  /** A GET as the handlers see it: `fetch` rejected, or a response with its
      `ok` flag and its body (`None` when `response.json()` rejects). */
  datatype ReadReply<T> = ReadFailed | ReadAnswered(ok: bool, body: Option<Body<T>>)

  /** What a `catch` clause receives: an `Error` with its message, or any other value. */
  datatype Thrown = ErrorValue(message: string) | OtherValue

  /** The POST as `submitRequest` sees it; the response body is not read. */
  datatype PostReply = PostFailed(reason: Thrown) | PostAnswered(ok: bool)

  const CreateFailedMessage := "Failed to create request"
  const FallbackMessage := "Request failed"

  /** The list a read handler stores: `Some` when it calls its setter. */
  function StoredListing<T>(reply: ReadReply<T>, checkOk: bool): (r: Option<Listing<T>>)
    ensures r.Some? <==> reply.ReadAnswered? && (reply.ok || !checkOk) && reply.body.Some?
    ensures r.Some? ==> r.value == Normalise(reply.body.value)
  {
    if reply.ReadAnswered? && (reply.ok || !checkOk) && reply.body.Some? then
      Some(Normalise(reply.body.value))
    else None
  }

  // ---------------------------------------------------------------------------
  // Rendering of the list

  /** One request card: title, quantity, badge classes, badge label, purpose and
      the From and Until dates, kept as the stored strings (their locale
      formatting is not part of this model). */
  datatype Card = Card(title: string, quantity: int, badgeClass: string, badgeText: string, purpose: string,
                       from: string, until: string)

  datatype ListView = Spinner | EmptyNotice | Cards(cards: seq<Card>)

  function CardOf(r: BorrowRequest): (c: Card)
    ensures c.title == r.equipment.name && c.quantity == r.quantity && c.purpose == r.purpose
    ensures c.badgeClass == StatusColor(r.status)
    ensures c.badgeText == StatusLabel(r.status) && |c.badgeText| == |r.status|
    ensures c.from == r.borrowFrom && c.until == r.borrowUntil
  {
    Card(r.equipment.name, r.quantity, StatusColor(r.status), StatusLabel(r.status), r.purpose,
         r.borrowFrom, r.borrowUntil)
  }

  /** `loading ? <Spinner/> : requests.length > 0 ? requests.map(...) : notice`;
      a stored non-array has no positive `length` and shows the notice. */
  function RenderList(loading: bool, requests: Listing<BorrowRequest>): (v: ListView)
    ensures v == Spinner <==> loading
    ensures v == EmptyNotice <==> !loading && (requests.NonList? || requests.items == [])
    ensures v.Cards? ==> requests.Items? && |v.cards| == |requests.items|
                         && forall i :: 0 <= i < |v.cards| ==> v.cards[i] == CardOf(requests.items[i])
  {
    if loading then Spinner
    else if requests.NonList? || requests.items == [] then EmptyNotice
    else Cards(seq(|requests.items|, i requires 0 <= i < |requests.items| => CardOf(requests.items[i])))
  }

  /** Every card shows its request's status with the badge `getStatusColor`
      gives it and the label `charAt(0).toUpperCase()` makes of it. */
  lemma CardsShowStatus(loading: bool, requests: Listing<BorrowRequest>, i: nat)
    requires RenderList(loading, requests).Cards?
    requires i < |RenderList(loading, requests).cards|
    ensures RenderList(loading, requests).cards[i].badgeClass == StatusColor(requests.items[i].status)
    ensures RenderList(loading, requests).cards[i].badgeText == StatusLabel(requests.items[i].status)
    ensures |RenderList(loading, requests).cards[i].badgeText| == |requests.items[i].status|
  {
  }

  // ---------------------------------------------------------------------------
  // Rendering of the dialog

  /** The creation dialog as rendered: closed; failed, because
      `equipmentList.map` and `equipmentList.find` throw a `TypeError` on a
      stored object that is not an array; or open, with the values of its
      equipment options (the `""` placeholder first), the quantity `max`,
      the two date `min`s and the error banner, if any. */
  datatype DialogView =
    | Closed
    | RenderFailed
    | Open(optionValues: seq<string>, quantityMax: int, fromMin: string, untilMin: string, banner: Option<string>)

  function RenderDialog(showModal: bool, equipmentList: Listing<Equipment>, draft: FormDraft,
                        error: string, today: string): (v: DialogView)
    ensures v == Closed <==> !showModal
    ensures v == RenderFailed <==> showModal && equipmentList.NonList?
    ensures v.Open? ==> && |v.optionValues| == |equipmentList.items| + 1 && v.optionValues[0] == ""
                        && (forall i :: 0 <= i < |equipmentList.items| ==>
                              v.optionValues[i + 1] == IdString(equipmentList.items[i].id))
                        && v.quantityMax == QuantityMax(equipmentList.items, draft.equipment)
                        && v.fromMin == today && v.untilMin == BorrowUntilMin(draft, today)
                        && (v.banner.Some? <==> error != "")
                        && (v.banner.Some? ==> v.banner.value == error)
  {
    if !showModal then Closed
    else if equipmentList.NonList? then RenderFailed
    else
      var xs := equipmentList.items;
      Open([""] + seq(|xs|, i requires 0 <= i < |xs| => IdString(xs[i].id)),
           QuantityMax(xs, draft.equipment), BorrowFromMin(today), BorrowUntilMin(draft, today),
           if error != "" then Some(error) else None)
  }

  // ---------------------------------------------------------------------------
  // Mount

  datatype MountAction = RedirectToLogin | LoadRequestsAndEquipment

  /** The mount effect: without a truthy token go to `/login`, otherwise
      start both reads. */
  function OnMount(token: Option<string>): (a: MountAction)
    ensures a == RedirectToLogin <==> !Truthy(token)
  {
    if !Truthy(token) then RedirectToLogin else LoadRequestsAndEquipment
  }

  // ---------------------------------------------------------------------------
  // Page state

  /** Which input of the dialog an `onChange` handler writes. */
  datatype DraftField = EquipmentField | QuantityField | PurposeField | BorrowFromField | BorrowUntilField

  /** `setFormData({ ...formData, <field>: value })`; the quantity input
      stores `Number(value)`. */
  function WithField(d: FormDraft, f: DraftField, value: string): (e: FormDraft)
    ensures e.equipment == (if f == EquipmentField then value else d.equipment)
    ensures e.quantity == (if f == QuantityField then ToNumber(value) else d.quantity)
    ensures e.purpose == (if f == PurposeField then value else d.purpose)
    ensures e.borrowFrom == (if f == BorrowFromField then value else d.borrowFrom)
    ensures e.borrowUntil == (if f == BorrowUntilField then value else d.borrowUntil)
  {
    match f
    case EquipmentField => d.(equipment := value)
    case QuantityField => d.(quantity := ToNumber(value))
    case PurposeField => d.(purpose := value)
    case BorrowFromField => d.(borrowFrom := value)
    case BorrowUntilField => d.(borrowUntil := value)
  }

  /** Selecting equipment moves the quantity bound but keeps the quantity. */
  lemma SelectionKeepsQuantity(d: FormDraft, list: seq<Equipment>, k: nat)
    requires k < |list|
    requires forall j :: 0 <= j < k ==> list[j].id != list[k].id
    ensures WithField(d, EquipmentField, IdString(list[k].id)).quantity == d.quantity
    ensures QuantityMax(list, WithField(d, EquipmentField, IdString(list[k].id)).equipment)
            == (if list[k].availableQuantity == 0 then 1 else list[k].availableQuantity)
  {
    QuantityMaxOfSelection(list, k);
  }

  /** All seven pieces of the page's state. */
  datatype PageState = PageState(
    requests: Listing<BorrowRequest>,
    equipmentList: Listing<Equipment>,
    loading: bool,
    showModal: bool,
    submitting: bool,
    error: string,
    formData: FormDraft)

  const InitialState := PageState(Items([]), Items([]), true, false, false, "", InitialDraft)

  /** The message `setError` receives when a submission does not succeed. */
  function SubmitError(reply: PostReply): (m: string)
    requires reply != PostAnswered(true)
    ensures reply.PostAnswered? ==> m == CreateFailedMessage
    ensures reply == PostFailed(OtherValue) ==> m == FallbackMessage
    ensures reply.PostFailed? && reply.reason.ErrorValue? ==> m == reply.reason.message
  {
    match reply
    case PostAnswered(_) => CreateFailedMessage
    case PostFailed(ErrorValue(msg)) => msg
    case PostFailed(OtherValue) => FallbackMessage
  }

  /** The component's state cells, updated in place by its handlers. */
  class RequestsPage {
    var requests: Listing<BorrowRequest>
    var equipmentList: Listing<Equipment>
    var loading: bool
    var showModal: bool
    var submitting: bool
    var error: string
    var formData: FormDraft

    function State(): PageState
      reads this
    {
      PageState(requests, equipmentList, loading, showModal, submitting, error, formData)
    }

    /** The `useState` initial values. */
    constructor ()
      ensures State() == InitialState
    {
      requests, equipmentList := Items([]), Items([]);
      loading, showModal, submitting := true, false, false;
      error := "";
      formData := InitialDraft;
    }

    /** A page whose cells hold `s`, as after some earlier sequence of events. */
    constructor FromState(s: PageState)
      ensures State() == s
    {
      requests, equipmentList := s.requests, s.equipmentList;
      loading, showModal, submitting := s.loading, s.showModal, s.submitting;
      error := s.error;
      formData := s.formData;
    }

    /** `fetchRequests`: only an ok response with a parsable body replaces
      the list; `loading` is cleared on every outcome. */
    method FetchRequests(reply: ReadReply<BorrowRequest>)
      modifies this
      ensures StoredListing(reply, true).Some? ==>
                State() == old(State()).(requests := StoredListing(reply, true).value, loading := false)
      ensures StoredListing(reply, true).None? ==> State() == old(State()).(loading := false)
    {
      if reply.ReadAnswered? && reply.ok {
        if reply.body.Some? {
          requests := Normalise(reply.body.value);
        }
      }
      loading := false;
    }

    /** `fetchAvailableEquipment`: `ok` is not checked, so any parsable body
      replaces the list; a failure leaves everything as it was. */
    method FetchAvailableEquipment(reply: ReadReply<Equipment>)
      modifies this
      ensures StoredListing(reply, false).Some? ==>
                State() == old(State()).(equipmentList := StoredListing(reply, false).value)
      ensures StoredListing(reply, false).None? ==> State() == old(State())
    {
      if reply.ReadAnswered? && reply.body.Some? {
        equipmentList := Normalise(reply.body.value);
      }
    }

    /** `resetForm`. */
    method ResetForm()
      modifies this
      ensures State() == old(State()).(formData := InitialDraft)
    {
      formData := InitialDraft;
    }

    /** The "Create Request" button. */
    method OpenModal()
      modifies this
      ensures State() == old(State()).(showModal := true)
    {
      showModal := true;
    }

    /** The "Cancel" button: the draft and any error are kept. */
    method CancelModal()
      modifies this
      ensures State() == old(State()).(showModal := false)
    {
      showModal := false;
    }

    /** An input's `onChange`. */
    method EditField(f: DraftField, value: string)
      modifies this
      ensures State() == old(State()).(formData := WithField(old(formData), f, value))
    {
      formData := WithField(formData, f, value);
    }

    /** `submitRequest` up to its `await`: raise `submitting`, clear the
      error, and send the payload built from the draft as it stands. */
    method BeginSubmit() returns (sent: Payload)
      modifies this
      ensures sent == BuildPayload(old(formData))
      ensures State() == old(State()).(submitting := true, error := "")
    {
      submitting := true;
      error := "";
      assert formData == old(formData);
      sent := BuildPayload(formData);
    }

    /** `submitRequest` after its `await`. On an ok response the dialog closes,
      the draft is reset and a re-fetch of the list is started (`refetch`);
      otherwise the error is set and dialog and draft are left alone.
      `submitting` is cleared either way. */
    method SettleSubmit(reply: PostReply) returns (refetch: bool)
      modifies this
      ensures refetch <==> reply == PostAnswered(true)
      ensures refetch ==>
                State() == old(State()).(showModal := false, formData := InitialDraft, submitting := false)
      ensures !refetch ==>
                State() == old(State()).(error := SubmitError(reply), submitting := false)
    {
      refetch := reply == PostAnswered(true);
      if refetch {
        showModal := false;
        ResetForm();
      } else {
        error := SubmitError(reply);
      }
      submitting := false;
    }

    /** The whole of `submitRequest`. */
    method SubmitRequest(reply: PostReply) returns (sent: Payload, refetch: bool)
      modifies this
      ensures sent == BuildPayload(old(formData))
      ensures refetch <==> reply == PostAnswered(true)
      ensures refetch ==>
                State() == old(State()).(showModal := false, formData := InitialDraft,
                                         submitting := false, error := "")
      ensures !refetch ==>
                State() == old(State()).(error := SubmitError(reply), submitting := false)
    {
      sent := BeginSubmit();
      refetch := SettleSubmit(reply);
    }
  }

  /** The equipment read from state `s`, then the "Create Request" button.
      Because `ok` is not checked, an error reply whose body is an object
      without `results` (such as `{"detail": ...}`) is stored as it is, and
      the dialog then fails to render; an empty list still renders. */
  method OpenDialogAfterEquipmentRead(s: PageState, reply: ReadReply<Equipment>, today: string)
    returns (v: DialogView)
    ensures reply.ReadAnswered? && reply.body == Some(Envelope(None)) ==> v == RenderFailed
    ensures v == RenderFailed <==>
              (if StoredListing(reply, false).Some? then StoredListing(reply, false).value else s.equipmentList).NonList?
    ensures reply.ReadAnswered? && reply.body.Some? && reply.body.value.Bare? ==>
              v.Open? && |v.optionValues| == |reply.body.value.items| + 1
  {
    var page := new RequestsPage.FromState(s);
    page.FetchAvailableEquipment(reply);
    page.OpenModal();
    v := RenderDialog(page.showModal, page.equipmentList, page.formData, page.error, today);
  }

  /** One submission from state `s`, followed by the re-fetch it starts when
      the server accepts: the payload is the draft with the equipment id
      converted, `submitting` ends false, and the two outcomes differ only as
      `submitRequest` and `fetchRequests` say. */
  method SubmitAndRefetch(s: PageState, reply: PostReply, refetchReply: ReadReply<BorrowRequest>)
    returns (sent: Payload, t: PageState)
    ensures sent == BuildPayload(s.formData)
    ensures !t.submitting
    ensures reply == PostAnswered(true) ==>
              && !t.showModal && t.formData == InitialDraft && t.error == "" && !t.loading
              && t.requests == (if StoredListing(refetchReply, true).Some?
                                then StoredListing(refetchReply, true).value else s.requests)
              && t.equipmentList == s.equipmentList
    ensures reply != PostAnswered(true) ==>
              t == s.(error := SubmitError(reply), submitting := false)
  {
    var page := new RequestsPage.FromState(s);
    var refetch;
    sent, refetch := page.SubmitRequest(reply);
    if refetch {
      page.FetchRequests(refetchReply);
    }
    t := page.State();
  }
}
