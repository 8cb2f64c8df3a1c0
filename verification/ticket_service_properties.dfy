/**
  Properties of the purchase pipeline stated against what the requests ask
  for (`Tally`, `RequestedTickets`, `RequestedPrice`) rather than against the
  aggregation map the pipeline builds.
 */
module TicketServiceProperties {
  import opened Wrappers
  import opened Tickets
  import opened TicketService

  /** The requests argument that is an array holding exactly `reqs`, in order. */
  function Lift(reqs: seq<TicketTypeRequest>): (values: seq<Value>)
    ensures |values| == |reqs|
    ensures forall i :: 0 <= i < |reqs| ==> values[i] == TicketValue(reqs[i])
  {
    seq(|reqs|, i requires 0 <= i < |reqs| => TicketValue(reqs[i]))
  }

  /** An array of ticket-type requests passes the shape check and yields those requests. */
  lemma ParseLift(reqs: seq<TicketTypeRequest>)
    ensures ParseTicketTypeRequests(ArrayOf(Lift(reqs))) == Some(reqs)
  {
    var r := ParseTicketTypeRequests(ArrayOf(Lift(reqs)));
    assert r.Some?;
    assert r.value == reqs;
  }

  // ----- Account and shape checks -----

  /**
    An account id that is not a positive integer is rejected with the account
    message and carries the id, whatever the service and the requests; no
    collaborator is called.
   */
  lemma InvalidAccountRejectedFirst(svc: Service, accountId: AccountId, arg: RequestsArgument)
    requires accountId.None? || accountId.value <= 0
    ensures Purchase(svc, accountId, arg)
         == Outcome([], Failure(InvalidPurchaseException(400, AccountIdInvalid, AccountContext(accountId))))
  {
  }

  /**
    With a valid account id, an argument that is not an array, or an array
    holding anything but ticket-type requests, is rejected with the requests
    message and carries the argument; no collaborator is called.
   */
  lemma MalformedRequestsRejectedSecond(svc: Service, id: int, arg: RequestsArgument)
    requires id > 0
    requires arg.NotAnArray? || exists i :: 0 <= i < |arg.values| && arg.values[i].OtherValue?
    ensures Purchase(svc, Some(id), arg)
         == Outcome([], Failure(InvalidPurchaseException(400, RequestsInvalid, RequestsContext(arg))))
  {
  }

  // ----- Aggregation -----

  /** Requests that ask for the same number of tickets in every category aggregate to the same ticket data. */
  lemma SameTalliesSameData(a: seq<TicketTypeRequest>, b: seq<TicketTypeRequest>)
    requires forall c :: Tally(a, c) == Tally(b, c)
    ensures AggregateTicketData(a) == AggregateTicketData(b)
  {
  }

  /** The aggregated ticket data does not depend on the order of the requests. */
  lemma AggregateOrderIndependent(a: seq<TicketTypeRequest>, b: seq<TicketTypeRequest>)
    requires multiset(a) == multiset(b)
    ensures AggregateTicketData(a) == AggregateTicketData(b)
  {
    forall c ensures Tally(a, c) == Tally(b, c) {
      TallyPermutation(a, b, c);
    }
    SameTalliesSameData(a, b);
  }

  /** The aggregated ticket data does not depend on how a category's quantity is split across requests. */
  lemma AggregateSplitIndependent(pre: seq<TicketTypeRequest>, post: seq<TicketTypeRequest>, t: Category, m: nat, n: nat)
    ensures AggregateTicketData(pre + [TicketTypeRequest(t, m + n)] + post)
         == AggregateTicketData(pre + [TicketTypeRequest(t, m), TicketTypeRequest(t, n)] + post)
  {
    var whole := pre + [TicketTypeRequest(t, m + n)] + post;
    var split := pre + [TicketTypeRequest(t, m), TicketTypeRequest(t, n)] + post;
    forall c ensures Tally(whole, c) == Tally(split, c) {
      SplitKeepsTally(pre, post, t, m, n, c);
    }
    SameTalliesSameData(whole, split);
  }

  // ----- Counting and pricing -----

  /** The price the requests ask for is 20 per adult, 10 per child and 0 per infant ticket. */
  lemma {:induction false} RequestedPriceByCategory(reqs: seq<TicketTypeRequest>)
    ensures RequestedPrice(reqs)
         == AdultTicketPrice * Tally(reqs, Adult) + ChildTicketPrice * Tally(reqs, Child) + InfantTicketPrice * Tally(reqs, Infant)
  {
    if |reqs| != 0 {
      RequestedPriceByCategory(reqs[1..]);
    }
  }

  /**
    The ticket count and the price computed from the aggregated data are those
    of the requests taken one by one: each request adds its own quantity, and
    its quantity times its category's price.
   */
  lemma {:induction false} CountAndPriceOfAggregate(reqs: seq<TicketTypeRequest>)
    ensures ComputeTicketsToBuy(AggregateTicketData(reqs)) == RequestedTickets(reqs)
    ensures ComputePriceData(AggregateTicketData(reqs)) == RequestedPrice(reqs)
  {
    RequestedTicketsIsSumOfTallies(reqs);
    RequestedPriceByCategory(reqs);
  }

  /** Count and price are additive: buying `a` and `b` together costs and counts what both cost and count apart. */
  lemma {:induction false} CountAndPriceAreAdditive(a: seq<TicketTypeRequest>, b: seq<TicketTypeRequest>)
    ensures ComputeTicketsToBuy(AggregateTicketData(a + b))
         == ComputeTicketsToBuy(AggregateTicketData(a)) + ComputeTicketsToBuy(AggregateTicketData(b))
    ensures ComputePriceData(AggregateTicketData(a + b))
         == ComputePriceData(AggregateTicketData(a)) + ComputePriceData(AggregateTicketData(b))
  {
    TallyConcat(a, b, Adult);
    TallyConcat(a, b, Child);
    TallyConcat(a, b, Infant);
  }

  /** However many infant tickets the data holds, they do not change the price. */
  lemma InfantsNeverChangePrice(data: TicketData, infants: nat)
    ensures ComputePriceData(data[Infant := infants]) == ComputePriceData(data)
    ensures ComputePriceData(data) == AdultTicketPrice * Count(data, Adult) + ChildTicketPrice * Count(data, Child)
  {
  }

  /** The data with every missing category filled in as 0. */
  function Completed(data: TicketData): (full: TicketData)
    ensures forall c :: c in full && full[c] == Count(data, c)
  {
    AllCategoriesComplete();
    map c: Category | c in AllCategories :: Count(data, c)
  }

  /** A category missing from the data counts as an explicit 0 in both the ticket count and the price. */
  lemma MissingCategoriesCountAsZero(data: TicketData)
    ensures ComputeTicketsToBuy(data) == ComputeTicketsToBuy(Completed(data))
    ensures ComputePriceData(data) == ComputePriceData(Completed(data))
  {
  }

  // ----- The pipeline on well-formed requests -----

  /**
    The outcome of purchasing well-formed requests with a valid account id,
    stated through what the requests ask for: the accompaniment rule is
    decided before the cap, and a successful purchase pays the requested
    price, then reserves the requested number of seats, each exactly once.
   */
  lemma {:induction false} PurchaseOfValidRequests(svc: Service, id: int, reqs: seq<TicketTypeRequest>)
    requires id > 0
    ensures
      var total, price := RequestedTickets(reqs), RequestedPrice(reqs);
      var context := TicketDataContext(AggregateTicketData(reqs));
      Purchase(svc, Some(id), ArrayOf(Lift(reqs)))
      == if Tally(reqs, Adult) == 0 && total > 0 then
           Outcome([], Failure(InvalidPurchaseException(400, AdultRequired, context)))
         else if total > svc.maxTickets then
           Outcome([], Failure(InvalidPurchaseException(400, TooManyTickets, context)))
         else
           Outcome([MakePayment(id, price), ReserveSeat(id, total)], Success(Receipt(200, price, total)))
  {
    ParseLift(reqs);
    CountAndPriceOfAggregate(reqs);
    RequestedTicketsIsSumOfTallies(reqs);
  }

  /**
    Children or infants without an adult are rejected with the accompaniment
    message, whatever the maximum: the cap is never consulted first.
   */
  lemma {:induction false} UnaccompaniedRejected(svc: Service, id: int, reqs: seq<TicketTypeRequest>)
    requires id > 0
    requires Tally(reqs, Adult) == 0 && (Tally(reqs, Child) > 0 || Tally(reqs, Infant) > 0)
    ensures Purchase(svc, Some(id), ArrayOf(Lift(reqs))).effects == []
    ensures Purchase(svc, Some(id), ArrayOf(Lift(reqs))).result
         == Failure(InvalidPurchaseException(400, AdultRequired, TicketDataContext(AggregateTicketData(reqs))))
  {
    PurchaseOfValidRequests(svc, id, reqs);
    RequestedTicketsIsSumOfTallies(reqs);
  }

  /**
    With at least one adult ticket the accompaniment rule passes: the purchase
    succeeds exactly when the total is within the maximum and otherwise fails
    with the cap message.
   */
  lemma {:induction false} AccompaniedPassesRule(svc: Service, id: int, reqs: seq<TicketTypeRequest>)
    requires id > 0
    requires Tally(reqs, Adult) >= 1
    ensures Purchase(svc, Some(id), ArrayOf(Lift(reqs))).result.Success? <==> RequestedTickets(reqs) <= svc.maxTickets
    ensures Purchase(svc, Some(id), ArrayOf(Lift(reqs))).result.Failure? ==>
              Purchase(svc, Some(id), ArrayOf(Lift(reqs))).result.error.message == TooManyTickets
  {
    PurchaseOfValidRequests(svc, id, reqs);
  }

  /**
    The cap is inclusive: setting the maximum to `max` lets through requests of
    exactly `max` tickets and rejects one more ticket, and the rejection message
    is the fixed text naming 20 whatever `max` is.
   */
  lemma SetMaxTicketsMovesCap(svc: Service, max: int, id: int, reqs: seq<TicketTypeRequest>)
    requires id > 0
    requires Tally(reqs, Adult) >= 1
    ensures RequestedTickets(reqs) == max ==>
              Purchase(SetMaxTickets(svc, max), Some(id), ArrayOf(Lift(reqs))).result.Success?
    ensures RequestedTickets(reqs) == max + 1 ==>
              Purchase(SetMaxTickets(svc, max), Some(id), ArrayOf(Lift(reqs)))
              == Outcome([], Failure(InvalidPurchaseException(400, "Too many tickets purchased (maximum of 20 per transaction)",
                                                              TicketDataContext(AggregateTicketData(reqs)))))
  {
    PurchaseOfValidRequests(SetMaxTickets(svc, max), id, reqs);
  }

  /** Two request lists that aggregate to the same ticket data have the same purchase outcome. */
  lemma {:induction false} SameDataSameOutcome(svc: Service, accountId: AccountId, a: seq<TicketTypeRequest>, b: seq<TicketTypeRequest>)
    requires AggregateTicketData(a) == AggregateTicketData(b)
    ensures Purchase(svc, accountId, ArrayOf(Lift(a))) == Purchase(svc, accountId, ArrayOf(Lift(b)))
  {
    ParseLift(a);
    ParseLift(b);
  }

  /** A purchase of the same requests in any order has the same outcome. */
  lemma PurchaseOrderIndependent(svc: Service, accountId: AccountId, a: seq<TicketTypeRequest>, b: seq<TicketTypeRequest>)
    requires multiset(a) == multiset(b)
    ensures Purchase(svc, accountId, ArrayOf(Lift(a))) == Purchase(svc, accountId, ArrayOf(Lift(b)))
  {
    AggregateOrderIndependent(a, b);
    SameDataSameOutcome(svc, accountId, a, b);
  }

  /** Splitting a request into two of the same category does not change the outcome of a purchase. */
  lemma PurchaseSplitIndependent(svc: Service, accountId: AccountId, pre: seq<TicketTypeRequest>,
                                 post: seq<TicketTypeRequest>, t: Category, m: nat, n: nat)
    ensures Purchase(svc, accountId, ArrayOf(Lift(pre + [TicketTypeRequest(t, m + n)] + post)))
         == Purchase(svc, accountId, ArrayOf(Lift(pre + [TicketTypeRequest(t, m), TicketTypeRequest(t, n)] + post)))
  {
    AggregateSplitIndependent(pre, post, t, m, n);
    SameDataSameOutcome(svc, accountId, pre + [TicketTypeRequest(t, m + n)] + post,
                        pre + [TicketTypeRequest(t, m), TicketTypeRequest(t, n)] + post);
  }

  /**
    A purchase succeeds exactly when every check passes, for any account id
    and any argument; the checks are the account id, the shape of the
    requests, the accompaniment rule and the cap.
   */
  lemma PurchaseSucceedsIff(svc: Service, accountId: AccountId, arg: RequestsArgument)
    ensures Purchase(svc, accountId, arg).result.Success? <==>
      && accountId.Some? && accountId.value > 0
      && ParseTicketTypeRequests(arg).Some?
      && var reqs := ParseTicketTypeRequests(arg).value;
         (Tally(reqs, Adult) > 0 || RequestedTickets(reqs) == 0) && RequestedTickets(reqs) <= svc.maxTickets
  {
    if accountId.Some? && accountId.value > 0 && ParseTicketTypeRequests(arg).Some? {
      var reqs := ParseTicketTypeRequests(arg).value;
      CountAndPriceOfAggregate(reqs);
      RequestedTicketsIsSumOfTallies(reqs);
    }
  }

  // ----- Cases from the repository's test suite -----

  /** The cap and pricing cases the test suite checks on a service's helpers. */
  lemma HelperTestCases()
    ensures DefaultService.maxTickets == 20
    ensures ValidateTicketCount(SetMaxTickets(DefaultService, 20), 20)
    ensures !ValidateTicketCount(SetMaxTickets(DefaultService, 10), 20)
    ensures ComputeTicketsToBuy(map[Adult := 20]) == 20
    ensures ComputePriceData(map[Adult := 20]) == 400
    ensures ComputePriceData(map[Adult := 20, Child := 10, Infant := 1000]) == 500
  {
  }

  /** Twenty adult tickets on the default service: 20 tickets for 400, paid then reserved. */
  lemma TwentyAdultsCase()
    ensures Purchase(DefaultService, Some(1), ArrayOf([TicketValue(TicketTypeRequest(Adult, 20))]))
         == Outcome([MakePayment(1, 400), ReserveSeat(1, 20)], Success(Receipt(200, 400, 20)))
  {
  }

  /** Ten adults, five children and five infants on the default service: 20 tickets for 250. */
  lemma MixedFamilyCase()
    ensures Purchase(DefaultService, Some(1), ArrayOf([TicketValue(TicketTypeRequest(Adult, 10)),
                                                       TicketValue(TicketTypeRequest(Child, 5)),
                                                       TicketValue(TicketTypeRequest(Infant, 5))]))
         == Outcome([MakePayment(1, 250), ReserveSeat(1, 20)], Success(Receipt(200, 250, 20)))
  {
    var reqs := [TicketTypeRequest(Adult, 10), TicketTypeRequest(Child, 5), TicketTypeRequest(Infant, 5)];
    assert Lift(reqs) == [TicketValue(reqs[0]), TicketValue(reqs[1]), TicketValue(reqs[2])];
    assert Tally(reqs, Adult) == 10;
    assert RequestedTickets(reqs) == 20;
    assert RequestedPrice(reqs) == 250;
    PurchaseOfValidRequests(DefaultService, 1, reqs);
  }

  /** Thirty tickets on the default service fail at the cap; with account 0 they fail at the account check. */
  lemma TooManyAndBadAccountCases()
    ensures Purchase(DefaultService, Some(1), ArrayOf([TicketValue(TicketTypeRequest(Adult, 20)),
                                                       TicketValue(TicketTypeRequest(Child, 5)),
                                                       TicketValue(TicketTypeRequest(Infant, 5))])).result.error.message
         == TooManyTickets
    ensures Purchase(DefaultService, Some(0), ArrayOf([TicketValue(TicketTypeRequest(Adult, 20)),
                                                       TicketValue(TicketTypeRequest(Child, 5)),
                                                       TicketValue(TicketTypeRequest(Infant, 5))])).result.error.message
         == AccountIdInvalid
    ensures Purchase(DefaultService, Some(1), NotAnArray).result.error.message == RequestsInvalid
    ensures Purchase(DefaultService, Some(1), ArrayOf([OtherValue])).result.error.message == RequestsInvalid
  {
  }
}
