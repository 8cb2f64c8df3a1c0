/**
  Ticket categories and ticket-type requests, together with the reference
  meaning of a list of requests: how many tickets of each category it asks for.
 */
module Tickets {

  /** The three ticket categories a request may name. */
  datatype Category = Adult | Child | Infant

  const AllCategories: set<Category> := {Adult, Child, Infant}

  /** There is no category beyond the three. */
  lemma AllCategoriesComplete()
    ensures forall c: Category :: c in AllCategories
  {
    forall c: Category ensures c in AllCategories {
      match c
      case Adult =>
      case Child =>
      case Infant =>
    }
  }

  /** Every category is one of the three. */
  lemma CategoryCases(c: Category)
    ensures c == Adult || c == Child || c == Infant
  {
  }

  /** One request: a category and how many tickets of it are wanted. */
  datatype TicketTypeRequest = TicketTypeRequest(ticketType: Category, noOfTickets: nat)

  /** The number of tickets of category `c` that `reqs` asks for, summed over all its requests. */
  function Tally(reqs: seq<TicketTypeRequest>, c: Category): nat
  {
    if |reqs| == 0 then 0
    else (if reqs[0].ticketType == c then reqs[0].noOfTickets else 0) + Tally(reqs[1..], c)
  }

  /** The number of tickets `reqs` asks for, whatever their category. */
  function RequestedTickets(reqs: seq<TicketTypeRequest>): nat
  {
    if |reqs| == 0 then 0 else reqs[0].noOfTickets + RequestedTickets(reqs[1..])
  }

  /** Requesting `s` and then `t` asks for as many tickets of each category as both together. */
  lemma {:induction false} TallyConcat(s: seq<TicketTypeRequest>, t: seq<TicketTypeRequest>, c: Category)
    ensures Tally(s + t, c) == Tally(s, c) + Tally(t, c)
  {
    if |s| == 0 {
      assert s + t == t;
    } else {
      assert (s + t)[1..] == s[1..] + t;
      TallyConcat(s[1..], t, c);
    }
  }

  /** Appending one request adds its quantity to its own category and nothing to any other. */
  lemma TallySnoc(s: seq<TicketTypeRequest>, r: TicketTypeRequest, c: Category)
    ensures Tally(s + [r], c) == Tally(s, c) + (if r.ticketType == c then r.noOfTickets else 0)
  {
    TallyConcat(s, [r], c);
  }

  /** Removing the request at index `j` takes exactly its own quantity off its own category. */
  lemma {:induction false} TallyRemove(b: seq<TicketTypeRequest>, j: nat, c: Category)
    requires j < |b|
    ensures Tally(b, c)
         == (if b[j].ticketType == c then b[j].noOfTickets else 0) + Tally(b[..j] + b[j + 1..], c)
  {
    assert b == b[..j] + [b[j]] + b[j + 1..];
    TallyConcat(b[..j] + [b[j]], b[j + 1..], c);
    TallyConcat(b[..j], [b[j]], c);
    TallyConcat(b[..j], b[j + 1..], c);
  }

  /** Removing one occurrence of `b[j]` from `b` leaves the same multiset as removing it from any permutation `a`. */
  lemma RemoveFromPermutation(a: seq<TicketTypeRequest>, b: seq<TicketTypeRequest>, j: nat)
    requires |a| > 0 && j < |b| && b[j] == a[0]
    requires multiset(a) == multiset(b)
    ensures multiset(a[1..]) == multiset(b[..j] + b[j + 1..])
  {
    assert a == [a[0]] + a[1..];
    assert b == b[..j] + [b[j]] + b[j + 1..];
    assert multiset(a) == multiset{a[0]} + multiset(a[1..]);
    assert multiset(b) == multiset(b[..j]) + multiset{b[j]} + multiset(b[j + 1..]);
    assert multiset(b[..j] + b[j + 1..]) == multiset(b[..j]) + multiset(b[j + 1..]);
    assert multiset(a[1..]) == multiset(a) - multiset{a[0]};
    assert multiset(b[..j] + b[j + 1..]) == multiset(b) - multiset{b[j]};
  }

  /** The tally of a category does not depend on the order of the requests. */
  lemma {:induction false} TallyPermutation(a: seq<TicketTypeRequest>, b: seq<TicketTypeRequest>, c: Category)
    requires multiset(a) == multiset(b)
    ensures Tally(a, c) == Tally(b, c)
  {
    if |a| == 0 {
      assert |b| == |multiset(b)| == 0;
    } else {
      assert a[0] in multiset(b);
      var j :| 0 <= j < |b| && b[j] == a[0];
      RemoveFromPermutation(a, b, j);
      TallyPermutation(a[1..], b[..j] + b[j + 1..], c);
      TallyRemove(b, j, c);
    }
  }

  /**
    Splitting one request of `m + n` tickets into two requests of the same
    category, of `m` and `n` tickets, changes no category's tally.
   */
  lemma SplitKeepsTally(pre: seq<TicketTypeRequest>, post: seq<TicketTypeRequest>,
                        t: Category, m: nat, n: nat, c: Category)
    ensures Tally(pre + [TicketTypeRequest(t, m + n)] + post, c)
         == Tally(pre + [TicketTypeRequest(t, m), TicketTypeRequest(t, n)] + post, c)
  {
    var whole := [TicketTypeRequest(t, m + n)];
    var parts := [TicketTypeRequest(t, m), TicketTypeRequest(t, n)];
    TallyConcat(pre + whole, post, c);
    TallyConcat(pre, whole, c);
    TallyConcat(pre + parts, post, c);
    TallyConcat(pre, parts, c);
    assert parts == [parts[0]] + [parts[1]];
    TallyConcat([parts[0]], [parts[1]], c);
  }

  /** The total number of tickets requested is the sum of the three category tallies. */
  lemma {:induction false} RequestedTicketsIsSumOfTallies(reqs: seq<TicketTypeRequest>)
    ensures RequestedTickets(reqs) == Tally(reqs, Adult) + Tally(reqs, Child) + Tally(reqs, Infant)
  {
    if |reqs| != 0 {
      RequestedTicketsIsSumOfTallies(reqs[1..]);
    }
  }
}
