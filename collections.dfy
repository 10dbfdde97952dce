/** The collections page (client/src/pages/manager/collections.tsx):
    pending payments created before now, each joined to its booking's
    customer and aged in whole days, most overdue first. `now` is the
    page's clock as a millisecond timestamp. */
module Collections {
  import opened Wrappers
  import opened Schema
  import Seqs

  /** One table row: the payment, its tenant if both lookups succeed, its age. */
  datatype Entry = Entry(payment: Payment, customer: Option<Customer>, daysOverdue: int)

  datatype BadgeVariant = Destructive | Secondary

  predicate IsOverdue(p: Payment, now: int) {
    p.status == "pending" && p.createdAt < now
  }

  /** `overduePayments`. */
  function OverduePayments(payments: Option<seq<Payment>>, now: int): (r: seq<Payment>)
    ensures forall p :: p in r <==> p in payments.GetOr([]) && IsOverdue(p, now)
    ensures Seqs.IsSubsequence(r, payments.GetOr([]))
  {
    Seqs.FilterIsSubsequence(payments.GetOr([]), p => IsOverdue(p, now));
    Seqs.Filter(payments.GetOr([]), p => IsOverdue(p, now))
  }

  /** Each overdue payment is listed as often as the server listed it. */
  lemma OverduePaymentsMultiplicity(payments: Option<seq<Payment>>, now: int)
    ensures forall p :: multiset(OverduePayments(payments, now))[p]
                        == if IsOverdue(p, now) then multiset(payments.GetOr([]))[p] else 0
  {
    forall p ensures multiset(OverduePayments(payments, now))[p]
                     == if IsOverdue(p, now) then multiset(payments.GetOr([]))[p] else 0 {
      Seqs.FilterMultiplicity(payments.GetOr([]), q => IsOverdue(q, now), p);
    }
  }

  /** The customer of the payment's booking (the first booking whose id is
      `payment.bookingId`): absent when that booking is, or when no
      customer has the booking's `customerId`. */
  function CustomerOf(p: Payment, bookings: Option<seq<Booking>>, customers: Option<seq<Customer>>)
    : (r: Option<Customer>)
    ensures BookingWithId(bookings.GetOr([]), p.bookingId).None? ==> r.None?
    ensures BookingWithId(bookings.GetOr([]), p.bookingId).Some? ==>
      r == CustomerWithId(customers.GetOr([]), BookingWithId(bookings.GetOr([]), p.bookingId).value.customerId)
    ensures r.Some? ==> exists b :: b in bookings.GetOr([]) && b.id == p.bookingId && r.value.id == b.customerId
    ensures r.Some? ==> r.value in customers.GetOr([])
  {
    match BookingWithId(bookings.GetOr([]), p.bookingId)
    case None => None
    case Some(b) => CustomerWithId(customers.GetOr([]), b.customerId)
  }

  /** Whole days since the payment was created, rounded down. */
  function DaysOverdue(p: Payment, now: int): (d: int)
    ensures d * MillisPerDay <= now - p.createdAt < (d + 1) * MillisPerDay
    ensures p.createdAt < now ==> d >= 0
  {
    (now - p.createdAt) / MillisPerDay
  }

  function MakeEntry(p: Payment, bookings: Option<seq<Booking>>, customers: Option<seq<Customer>>, now: int): Entry {
    Entry(p, CustomerOf(p, bookings, customers), DaysOverdue(p, now))
  }

  /** The `map` step, before sorting. */
  function Entries(ps: seq<Payment>, bookings: Option<seq<Booking>>, customers: Option<seq<Customer>>, now: int)
    : (r: seq<Entry>)
    ensures |r| == |ps|
    ensures forall i :: 0 <= i < |r| ==> r[i] == MakeEntry(ps[i], bookings, customers, now)
  {
    seq(|ps|, i requires 0 <= i < |ps| => MakeEntry(ps[i], bookings, customers, now))
  }

  /** Sort key of the comparator that puts larger day counts first. */
  function MostOverdueFirst(e: Entry): int { -e.daysOverdue }

  /** Every entry built from overdue payments is well formed. */
  predicate GoodEntry(e: Entry, payments: Option<seq<Payment>>, bookings: Option<seq<Booking>>,
                      customers: Option<seq<Customer>>, now: int) {
    && e.payment in payments.GetOr([]) && IsOverdue(e.payment, now)
    && e.customer == CustomerOf(e.payment, bookings, customers)
    && e.daysOverdue == DaysOverdue(e.payment, now) && e.daysOverdue >= 0
  }

  lemma EntriesGood(payments: Option<seq<Payment>>, bookings: Option<seq<Booking>>,
                    customers: Option<seq<Customer>>, now: int)
    ensures forall e :: e in Entries(OverduePayments(payments, now), bookings, customers, now) ==>
      GoodEntry(e, payments, bookings, customers, now)
  {
    var overdue := OverduePayments(payments, now);
    var entries := Entries(overdue, bookings, customers, now);
    forall e | e in entries ensures GoodEntry(e, payments, bookings, customers, now) {
      var i :| 0 <= i < |entries| && entries[i] == e;
      assert overdue[i] in overdue;
    }
  }

  /** `overdueCustomers`: one entry per overdue payment, each with its
      customer and a non-negative age, most overdue first. */
  function OverdueCustomers(payments: Option<seq<Payment>>, bookings: Option<seq<Booking>>,
                            customers: Option<seq<Customer>>, now: int): (r: seq<Entry>)
    ensures multiset(r) == multiset(Entries(OverduePayments(payments, now), bookings, customers, now))
    ensures |r| == |OverduePayments(payments, now)|
    ensures forall i, j :: 0 <= i < j < |r| ==> r[i].daysOverdue >= r[j].daysOverdue
    ensures forall e :: e in r ==> GoodEntry(e, payments, bookings, customers, now)
  {
    var entries := Entries(OverduePayments(payments, now), bookings, customers, now);
    var r := Seqs.SortBy(entries, MostOverdueFirst);
    EntriesGood(payments, bookings, customers, now);
    assert |r| == |multiset(r)| == |multiset(entries)| == |entries|;
    assert forall e :: e in r ==> e in multiset(entries);
    r
  }

  /** Entries equally overdue keep the order of their payments. */
  lemma {:induction false} OverdueCustomersStable(payments: Option<seq<Payment>>, bookings: Option<seq<Booking>>,
                               customers: Option<seq<Customer>>, now: int, days: int)
    ensures Seqs.Filter(OverdueCustomers(payments, bookings, customers, now), Seqs.KeyIs(MostOverdueFirst, -days))
         == Seqs.Filter(Entries(OverduePayments(payments, now), bookings, customers, now), Seqs.KeyIs(MostOverdueFirst, -days))
  {
    var entries := Entries(OverduePayments(payments, now), bookings, customers, now);
    assert OverdueCustomers(payments, bookings, customers, now) == Seqs.SortBy(entries, MostOverdueFirst);
    SortStable(entries, days);
  }

  lemma SortStable(entries: seq<Entry>, days: int)
    ensures Seqs.Filter(Seqs.SortBy(entries, MostOverdueFirst), Seqs.KeyIs(MostOverdueFirst, -days))
         == Seqs.Filter(entries, Seqs.KeyIs(MostOverdueFirst, -days))
  {
    Seqs.SortByStable(entries, MostOverdueFirst, -days);
  }

  /** The age badge turns destructive after thirty days. */
  function Badge(daysOverdue: int): (v: BadgeVariant)
    ensures v == Destructive <==> daysOverdue > 30
  {
    if daysOverdue > 30 then Destructive else Secondary
  }
}
