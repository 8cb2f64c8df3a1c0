/**
  The ticket-purchase pipeline of `TicketService`: validate the account id,
  validate the shape of the requests, aggregate ticket counts per category,
  apply the adult-accompaniment rule and the maximum-ticket cap, price the
  order, then charge and reserve. The first failing check ends the call.

  The payment and seat-reservation collaborators appear only as the effects
  they are asked to perform, in the order they are asked.
 */
module TicketService {
  import opened Wrappers
  import opened Tickets

  /** Per-ticket prices, fixed on every service instance. */
  const AdultTicketPrice: nat := 20
  const ChildTicketPrice: nat := 10
  const InfantTicketPrice: nat := 0

  /** The configurable part of a service instance: the maximum number of tickets per purchase. */
  datatype Service = Service(maxTickets: int)

  /** A freshly constructed service. */
  const DefaultService: Service := Service(20)

  /** The account id after JavaScript's `parseInt`: `None` when parsing gives no number. */
  type AccountId = Option<int>

  /** An element of the requests argument: a ticket-type request, or any other value. */
  datatype Value = TicketValue(request: TicketTypeRequest) | OtherValue

  /** The requests argument as the caller passes it: an array of values, or something that is not an array. */
  datatype RequestsArgument = NotAnArray | ArrayOf(values: seq<Value>)

  /** Tickets per category; a category missing from the map counts as 0 where the source defaults it. */
  type TicketData = map<Category, nat>

  /** The offending value an error carries. */
  datatype ErrorContext =
    | AccountContext(accountId: AccountId)
    | RequestsContext(requests: RequestsArgument)
    | TicketDataContext(ticketData: TicketData)

  /** The single error kind of the pipeline. */
  datatype InvalidPurchaseException = InvalidPurchaseException(code: int, message: string, context: ErrorContext)

  const AccountIdInvalid := "Account ID is invalid"
  const RequestsInvalid := "ticketTypeRequests received are invalid"
  const AdultRequired := "Cannot purchase child / infant tickets without an accompanying adult"
  const TooManyTickets := "Too many tickets purchased (maximum of 20 per transaction)"

  /** A request to a collaborator. */
  datatype Effect =
    | MakePayment(accountId: int, totalAmountToPay: nat)
    | ReserveSeat(accountId: int, totalSeatsToAllocate: nat)

  /** What a successful purchase returns. */
  datatype Receipt = Receipt(code: int, totalAmountToPay: nat, ticketsToBuy: nat)

  /** The collaborator calls made, in order, and what the call returned or raised. */
  datatype Outcome = Outcome(effects: seq<Effect>, result: Result<Receipt, InvalidPurchaseException>)

  /**
    Replaces the maximum number of tickets per purchase. Nothing else of the
    service changes, and afterwards a count of exactly `max` passes the cap
    while `max + 1` does not.
   */
  function SetMaxTickets(svc: Service, max: int): (s: Service)
    ensures s.maxTickets == max
    ensures s == Service(max)
    ensures max >= 0 ==> ValidateTicketCount(s, max)
    ensures max + 1 >= 0 ==> !ValidateTicketCount(s, max + 1)
  {
    svc.(maxTickets := max)
  }

  /**
    An account id is valid when it parses to an integer greater than zero; a
    valid id always has the parsed value that the collaborators receive.
   */
  predicate ValidateAccountId(accountId: AccountId)
    ensures ValidateAccountId(accountId) ==> accountId.Some?
    ensures accountId.Some? ==> (ValidateAccountId(accountId) <==> accountId.value >= 1)
  {
    match accountId
    case None => false
    case Some(n) => n > 0
  }

  /**
    The typed form of the requests check: the argument is accepted exactly when
    it is an array all of whose elements are ticket-type requests, and then the
    requests are those elements, in order.
   */
  function ParseTicketTypeRequests(arg: RequestsArgument): (r: Option<seq<TicketTypeRequest>>)
    ensures r.Some? <==> arg.ArrayOf? && forall i :: 0 <= i < |arg.values| ==> arg.values[i].TicketValue?
    ensures r.Some? ==> |r.value| == |arg.values|
    ensures r.Some? ==> forall i :: 0 <= i < |r.value| ==> arg.values[i] == TicketValue(r.value[i])
  {
    match arg
    case NotAnArray => None
    case ArrayOf(values) => ParseValues(values)
  }

  /** Scans the values from the front and gives up at the first one that is not a ticket-type request. */
  function ParseValues(values: seq<Value>): (r: Option<seq<TicketTypeRequest>>)
    ensures r.Some? <==> forall i :: 0 <= i < |values| ==> values[i].TicketValue?
    ensures r.Some? ==> |r.value| == |values|
    ensures r.Some? ==> forall i :: 0 <= i < |r.value| ==> values[i] == TicketValue(r.value[i])
  {
    if |values| == 0 then Some([])
    else match values[0]
      case OtherValue => None
      case TicketValue(req) =>
        match ParseValues(values[1..])
        case None => None
        case Some(rest) => Some([req] + rest)
  }

  /**
    The cap check: a total no larger than the configured maximum passes. The
    bound is inclusive, one ticket more fails, and a negative maximum lets
    nothing through.
   */
  predicate ValidateTicketCount(svc: Service, ticketsToBuy: nat)
    ensures ticketsToBuy == svc.maxTickets ==> ValidateTicketCount(svc, ticketsToBuy)
    ensures ticketsToBuy == svc.maxTickets + 1 ==> !ValidateTicketCount(svc, ticketsToBuy)
    ensures svc.maxTickets < 0 ==> !ValidateTicketCount(svc, ticketsToBuy)
  {
    ticketsToBuy <= svc.maxTickets
  }

  /** The value of a category in the ticket data, 0 when the category is missing. */
  function Count(data: TicketData, c: Category): nat
  {
    if c in data then data[c] else 0
  }

  /**
    The accompaniment rule: children or infants need an adult. Only an adult
    count explicitly present and equal to 0 fails it; a missing adult entry
    passes, since the source compares it with `=== 0`.
   */
  predicate ValidateChildrenAndInfants(data: TicketData)
    ensures Count(data, Adult) > 0 ==> ValidateChildrenAndInfants(data)
    ensures Adult !in data ==> ValidateChildrenAndInfants(data)
    ensures Adult in data ==>
      (ValidateChildrenAndInfants(data) <==> Count(data, Adult) > 0 || Count(data, Child) + Count(data, Infant) == 0)
  {
    !((Count(data, Child) > 0 || Count(data, Infant) > 0) && Adult in data && data[Adult] == 0)
  }

  /**
    The number of tickets in the data, a missing category counting as 0: no
    category holds more than the total, and the total is 0 exactly when every
    category is.
   */
  function ComputeTicketsToBuy(data: TicketData): (n: nat)
    ensures forall c :: Count(data, c) <= n
    ensures n == 0 <==> forall c :: Count(data, c) == 0
  {
    assert forall c :: Count(data, c) <= Count(data, Adult) + Count(data, Child) + Count(data, Infant) by {
      forall c ensures Count(data, c) <= Count(data, Adult) + Count(data, Child) + Count(data, Infant) {
        CategoryCases(c);
      }
    }
    Count(data, Adult) + Count(data, Child) + Count(data, Infant)
  }

  /**
    The price of the tickets in the data, a missing category counting as 0: no
    ticket costs more than an adult ticket, and every ticket other than an
    infant's costs at least a child's price.
   */
  function ComputePriceData(data: TicketData): (p: nat)
    ensures p <= AdultTicketPrice * ComputeTicketsToBuy(data)
    ensures p >= ChildTicketPrice * (ComputeTicketsToBuy(data) - Count(data, Infant))
  {
    Count(data, Adult) * AdultTicketPrice + Count(data, Child) * ChildTicketPrice + Count(data, Infant) * InfantTicketPrice
  }

  /** The price of one ticket of category `c`. */
  function UnitPrice(c: Category): nat
  {
    match c
    case Adult => AdultTicketPrice
    case Child => ChildTicketPrice
    case Infant => InfantTicketPrice
  }

  /** What `reqs` costs, request by request. */
  function RequestedPrice(reqs: seq<TicketTypeRequest>): nat
  {
    if |reqs| == 0 then 0
    else reqs[0].noOfTickets * UnitPrice(reqs[0].ticketType) + RequestedPrice(reqs[1..])
  }

  /** The ticket data every purchase starts from: each category present with 0. */
  const InitialTicketData: TicketData := map[Adult := 0, Child := 0, Infant := 0]

  /** Every category is present in the initial ticket data, with 0. */
  lemma InitialTicketDataIsZero()
    ensures forall c :: c in InitialTicketData && InitialTicketData[c] == 0
  {
    AllCategoriesComplete();
    assert InitialTicketData.Keys == AllCategories;
  }

  /** Adds one request's quantity to its own category. */
  function AddRequest(data: TicketData, r: TicketTypeRequest): (d: TicketData)
    requires r.ticketType in data
    ensures d.Keys == data.Keys
    ensures d[r.ticketType] == data[r.ticketType] + r.noOfTickets
    ensures forall c :: c in data && c != r.ticketType ==> d[c] == data[c]
  {
    data[r.ticketType := data[r.ticketType] + r.noOfTickets]
  }

  /**
    The aggregation loop: starting from `InitialTicketData`, add the requests
    in order. Every category is present and holds what the requests ask for it.
   */
  function AggregateTicketData(reqs: seq<TicketTypeRequest>): (d: TicketData)
    ensures forall c :: c in d && d[c] == Tally(reqs, c)
  {
    if |reqs| == 0 then
      InitialTicketDataIsZero();
      InitialTicketData
    else
      var init, last := reqs[..|reqs| - 1], reqs[|reqs| - 1];
      assert reqs == init + [last];
      var d := AggregateTicketData(init);
      assert forall c :: Tally(reqs, c) == Tally(init, c) + (if last.ticketType == c then last.noOfTickets else 0) by {
        forall c ensures Tally(reqs, c) == Tally(init, c) + (if last.ticketType == c then last.noOfTickets else 0) {
          TallySnoc(init, last, c);
        }
      }
      AddRequest(d, last)
  }

  /** Ends the call with an error carrying `message` and `context`, before any collaborator is called. */
  function Reject(message: string, context: ErrorContext): Outcome
  {
    Outcome([], Failure(InvalidPurchaseException(400, message, context)))
  }

  /**
    `purchaseTickets`: the checks in their fixed order, then payment followed
    by seat reservation, then the receipt.
   */
  function Purchase(svc: Service, accountId: AccountId, arg: RequestsArgument): (o: Outcome)
    ensures o.result.Failure? ==> o.effects == [] && o.result.error.code == 400
    ensures o.result.Success? ==>
      && accountId.Some?
      && o.result.value.code == 200
      && o.result.value.ticketsToBuy <= svc.maxTickets
      && o.effects == [MakePayment(accountId.value, o.result.value.totalAmountToPay),
                       ReserveSeat(accountId.value, o.result.value.ticketsToBuy)]
  {
    if !ValidateAccountId(accountId) then Reject(AccountIdInvalid, AccountContext(accountId))
    else match ParseTicketTypeRequests(arg)
      case None => Reject(RequestsInvalid, RequestsContext(arg))
      case Some(reqs) =>
        var ticketData := AggregateTicketData(reqs);
        if !ValidateChildrenAndInfants(ticketData) then Reject(AdultRequired, TicketDataContext(ticketData))
        else
          var ticketsToBuy := ComputeTicketsToBuy(ticketData);
          if !ValidateTicketCount(svc, ticketsToBuy) then Reject(TooManyTickets, TicketDataContext(ticketData))
          else
            var totalAmountToPay := ComputePriceData(ticketData);
            var id := accountId.value;
            Outcome([MakePayment(id, totalAmountToPay), ReserveSeat(id, ticketsToBuy)],
                    Success(Receipt(200, totalAmountToPay, ticketsToBuy)))
  }
}
