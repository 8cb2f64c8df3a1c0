# Cinema ticket purchase — a verified Dafny model

This project models `TicketService`, the ticket-purchase pipeline of a cinema
booking service. A purchase runs a fixed sequence of checks, and the first
failing one ends the call with an `InvalidPurchaseException` (code 400, a fixed
message, the offending value):

1. the account id must parse to an integer greater than 0;
2. the requests must be an array whose every element is a ticket-type request;
3. the quantities are summed per category (ADULT, CHILD, INFANT), each starting at 0;
4. child or infant tickets need at least one adult ticket;
5. the total number of tickets must not exceed the configured maximum (20 by default, replaced by `setMaxTickets`).

Then the order is priced at 20 per adult, 10 per child and 0 per infant ticket.
The payment service is charged, the seats are reserved, and the call returns
`{code: 200, totalAmountToPay, ticketsToBuy}`.

## Layout

- `wrappers.dfy`, module `Wrappers`: `Option` and `Result`.
- `tickets.dfy`, module `Tickets`: ticket categories and ticket-type requests. It also holds the reference meaning of a request list. `Tally(reqs, c)` is the number of tickets of category `c` the list asks for, and `RequestedTickets` is the total. Its lemmas show that a tally does not depend on request order or on how a quantity is split.
- `ticket_service.dfy`, module `TicketService`: the service configuration, the error, the collaborator effects, each helper of the source class, and `Purchase` itself.
- `ticket_service_properties.dfy`, module `TicketServiceProperties`: properties of the whole pipeline. They are stated against `Tally`, `RequestedTickets` and `RequestedPrice`, not against the map the pipeline builds.

## Modelling decisions

- The account id is the already-parsed value `Option<int>`. `None` stands for an id on which `parseInt` gives no number or throws.
- The requests argument is `NotAnArray` or `ArrayOf(values)`. Each value is `TicketValue(request)` or `OtherValue`, where `OtherValue` is anything that is not a ticket-type request.
- The ticket data is a `map<Category, nat>`, as in the source. `computeTicketsToBuy` and `computePriceData` read a missing category as 0 (the source's `|| 0`). `validateChildrenAndInfants` compares the adult entry with `=== 0`, so a missing adult entry passes it. `Purchase` always builds a map holding all three categories, so this difference never shows inside a purchase.
- The payment and seat-reservation services are not modelled. A purchase's `Outcome` records the calls it makes as a sequence of effects, `MakePayment(id, amount)` then `ReserveSeat(id, seats)`. This sequence is empty whenever the call fails.
- The service instance is the value `Service(maxTickets)`. `DefaultService` has a maximum of 20, and `SetMaxTickets` returns the service with the maximum replaced. The three prices are module constants, because the source never changes them.
- Behaviour kept as written:
  - The cap message always says "maximum of 20 per transaction", even after the maximum has been changed.
  - An empty request array with a valid account succeeds with 0 tickets and 0 to pay, and still calls both collaborators.
  - A negative maximum rejects every request list, even an empty one.

## Model

| member | source | states |
|---|---|---|
| `TicketService.SetMaxTickets` | src/pairtest/TicketService.js:15-17 | the maximum is replaced and nothing else of the service changes; afterwards a count of exactly `max` passes the cap and `max + 1` does not (at the pipeline level: `SetMaxTicketsMovesCap`) |
| `TicketService.ValidateAccountId` | src/pairtest/TicketService.js:19-26 | only an id that parsed passes, and a parsed id passes exactly when it is at least 1 (at the pipeline level: `PurchaseSucceedsIff`, a positive parsed id is exactly what gets past the first check) |
| `TicketService.ValidateTicketCount` | src/pairtest/TicketService.js:40-42 | the cap is inclusive: a count equal to the maximum passes, one more fails, and a negative maximum lets nothing through (at the pipeline level: `AccompaniedPassesRule`) |
| `TicketService.ComputeTicketsToBuy` | src/pairtest/TicketService.js:57-64 | the total is at least each category's count, a missing category counting as 0, and is 0 exactly when every category is (equal to `RequestedTickets` on the aggregate: `CountAndPriceOfAggregate`) |
| `TicketService.ComputePriceData` | src/pairtest/TicketService.js:66-73 | the price is at most 20 per ticket and at least 10 per ticket that is not an infant's (equal to `RequestedPrice` on the aggregate: `CountAndPriceOfAggregate`) |
| `TicketService.ParseTicketTypeRequests` | src/pairtest/TicketService.js:28-38 | the argument is accepted exactly when it is an array whose every element is a ticket-type request; the accepted requests are those elements, in order |
| `TicketService.ValidateChildrenAndInfants` | src/pairtest/TicketService.js:44-55 | with an adult entry present, the rule fails exactly when there are no adults and some children or infants; at least one adult always passes; a missing adult entry passes |
| `TicketService.AddRequest` | src/pairtest/TicketService.js:90-94 | one request adds its quantity to its own category and leaves every other category and the set of categories unchanged |
| `TicketService.AggregateTicketData` | src/pairtest/TicketService.js:84-94 | after aggregation every category is present and holds the number of tickets the requests ask for it, `Tally(reqs, c)` |
| `TicketService.Purchase` | src/pairtest/TicketService.js:75-113 | a failure is code 400 and calls no collaborator; a success is code 200 within the maximum, pays the receipt's amount and then reserves the receipt's seat count, each exactly once, for the parsed account id |
| `TicketServiceProperties.InvalidAccountRejectedFirst` | src/pairtest/TicketService.js:76-78 | an account id that is missing or not greater than 0 fails with "Account ID is invalid", carrying the parsed id, whatever the service and requests, and with no collaborator call |
| `TicketServiceProperties.MalformedRequestsRejectedSecond` | src/pairtest/TicketService.js:80-82 | with a valid account, a non-array or an array holding a non-request fails with "ticketTypeRequests received are invalid", carrying the argument, with no collaborator call |
| `TicketServiceProperties.AggregateOrderIndependent` | src/pairtest/TicketService.js:84-94 | two request lists that are permutations of each other aggregate to the same ticket data |
| `TicketServiceProperties.AggregateSplitIndependent` | src/pairtest/TicketService.js:90-94 | replacing one request of m+n tickets by two requests of m and n tickets of the same category gives the same ticket data |
| `TicketServiceProperties.RequestedPriceByCategory` | src/pairtest/TicketService.js:8-10 | the request-by-request price is 20 per adult, 10 per child and 0 per infant ticket requested |
| `TicketServiceProperties.CountAndPriceOfAggregate` | src/pairtest/TicketService.js:57-73 | the ticket count and price computed from the aggregated data equal the sums over the individual requests of quantity and of quantity times unit price |
| `TicketServiceProperties.CountAndPriceAreAdditive` | src/pairtest/TicketService.js:57-73 | count and price of two request lists bought together are the sums of their separate counts and prices |
| `TicketServiceProperties.InfantsNeverChangePrice` | src/pairtest/TicketService.js:66-73 | setting the infant count to any value leaves the price unchanged; the price is 20 per adult plus 10 per child |
| `TicketServiceProperties.MissingCategoriesCountAsZero` | src/pairtest/TicketService.js:57-73 | data with categories missing has the same count and price as the same data with those categories set to 0 |
| `TicketServiceProperties.PurchaseOfValidRequests` | src/pairtest/TicketService.js:84-113 | for a valid account and well-formed requests: no adult and some tickets gives the accompaniment error; otherwise more than the maximum gives the cap error; otherwise payment of the requested price, then reservation of the requested count, and that receipt |
| `TicketServiceProperties.UnaccompaniedRejected` | src/pairtest/TicketService.js:96-98 | children or infants with no adult fail with the accompaniment message, carrying the ticket data, whatever the maximum, with no collaborator call |
| `TicketServiceProperties.AccompaniedPassesRule` | src/pairtest/TicketService.js:100-103 | with at least one adult the purchase succeeds exactly when the total is at most the maximum, and otherwise fails with the cap message |
| `TicketServiceProperties.SetMaxTicketsMovesCap` | src/pairtest/TicketService.js:15-17 | after `SetMaxTickets(max)` a total of exactly `max` succeeds and `max + 1` fails with the fixed message naming 20, whatever `max` is |
| `TicketServiceProperties.PurchaseOrderIndependent` | src/pairtest/TicketService.js:84-113 | purchasing a permutation of the same requests has exactly the same outcome, effects included |
| `TicketServiceProperties.PurchaseSplitIndependent` | src/pairtest/TicketService.js:90-113 | splitting a request into two of the same category does not change the outcome of a purchase |
| `TicketServiceProperties.PurchaseSucceedsIff` | src/pairtest/TicketService.js:75-103 | a purchase succeeds if and only if the account id is positive, the requests are well-formed, there is an adult or no ticket at all, and the total is within the maximum |
| `TicketServiceProperties.HelperTestCases` | test/TicketService.test.js:64-151 | the default maximum is 20; 20 passes a maximum of 20 and fails one of 10; 20 adults alone count 20 and cost 400; 20 adults, 10 children and 1000 infants cost 500 |
| `TicketServiceProperties.TwentyAdultsCase` | test/TicketService.test.js:160-167 | account 1 buying 20 adult tickets pays 400, reserves 20 seats and receives code 200 |
| `TicketServiceProperties.MixedFamilyCase` | test/TicketService.test.js:169-178 | account 1 buying 10 adult, 5 child and 5 infant tickets pays 250, reserves 20 seats and receives code 200 |
| `TicketServiceProperties.TooManyAndBadAccountCases` | test/TicketService.test.js:180-233 | 30 tickets fail at the cap; account 0 fails at the account check first; a non-array or a non-request element fails the shape check |

## Left out

- `parseInt` on strings and other values is not modelled. The account id enters as an already-parsed `Option<int>`.
- The `instanceof TicketTypeRequest` check on arbitrary JavaScript values is reduced to the two-way `TicketValue` / `OtherValue` distinction.
- `src/pairtest/lib/TicketTypeRequest.js` and `src/pairtest/lib/constants.js` are not part of this model. Requests have one of the three categories and a non-negative integer quantity. Negative, fractional or non-numeric quantities are not modelled.
- `setMaxTickets` accepts any JavaScript value. The model takes an integer.
- The payment and seat-reservation services are not part of this model: they are external I/O. Only the calls made to them are recorded, and both calls are taken to return normally. An exception from either would propagate uncaught in the source, possibly after payment already happened. The model does not represent that.
- `InvalidPurchaseException`'s prototype wiring is left out. The datatype keeps the code, the message and the offending value. The source stores that value as a one-element array in the exception's `stack` field. The model keeps the single value, in the field `context`.
- TicketServiceProperties.InvalidAccountRejectedFirst: the account error carries the parsed id (`Option<int>`), not the raw argument the caller passed. Distinct raw values that parse alike, such as `"abc"` and `undefined` (both `None`) or `"-1"` and `-1`, give the same error in the model but errors with different contents in the source.
- TicketService.Purchase: counts, running sums and the price are exact unbounded integers in the model, while JavaScript numbers are doubles. The source agrees with the model only while every running sum, the ticket total and 20 times the adult count stay below 2^53. Above that, a sum such as 2^53 + 1 rounds down and can pass a cap that the exact total exceeds. Every purchase that passes the cap stays below that bound whenever the maximum is below about 4.5·10^14.
