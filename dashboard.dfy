/**
 * The dashboard counters (app/dashboard/page.tsx): the stored invoices of
 * the signed-in user split into all, paid and unpaid.
 */
module Dashboard {
  import opened Wrappers

  /** A fetched invoice document, read as `{ id, paid? }`. */
  datatype StoredInvoice = StoredInvoice(id: string, paid: Option<bool>)

  /**
   * `i.paid` is truthy. The field is typed as an optional boolean (the
   * `Invoice` type of the dashboard page), so truthy means present and true.
   */
  predicate IsPaid(invoice: StoredInvoice) {
    invoice.paid == Some(true)
  }

  /** `invoices.filter((i) => i.paid)`. */
  function PaidInvoices(invoices: seq<StoredInvoice>): seq<StoredInvoice> {
    if invoices == [] then []
    else
      var last := invoices[|invoices| - 1];
      PaidInvoices(invoices[..|invoices| - 1]) + (if IsPaid(last) then [last] else [])
  }

  /** `invoices.filter((i) => !i.paid)`: `paid` false or absent. */
  function UnpaidInvoices(invoices: seq<StoredInvoice>): seq<StoredInvoice> {
    if invoices == [] then []
    else
      var last := invoices[|invoices| - 1];
      UnpaidInvoices(invoices[..|invoices| - 1]) + (if IsPaid(last) then [] else [last])
  }

  /**
   * The two filters split the fetched list: every invoice goes to exactly
   * one of them, as often as it occurs, so the counts add up to the total.
   */
  lemma {:induction false} PaidUnpaidPartition(invoices: seq<StoredInvoice>)
    ensures multiset(PaidInvoices(invoices)) + multiset(UnpaidInvoices(invoices)) == multiset(invoices)
    ensures |PaidInvoices(invoices)| + |UnpaidInvoices(invoices)| == |invoices|
  {
    if invoices != [] {
      var n := |invoices| - 1;
      var prefix, last := invoices[..n], invoices[n];
      PaidUnpaidPartition(prefix);
      assert invoices == prefix + [last];
      assert multiset(invoices) == multiset(prefix) + multiset{last};
      if IsPaid(last) {
        assert PaidInvoices(invoices) == PaidInvoices(prefix) + [last];
        assert UnpaidInvoices(invoices) == UnpaidInvoices(prefix);
        assert multiset(PaidInvoices(invoices)) == multiset(PaidInvoices(prefix)) + multiset{last};
      } else {
        assert PaidInvoices(invoices) == PaidInvoices(prefix);
        assert UnpaidInvoices(invoices) == UnpaidInvoices(prefix) + [last];
        assert multiset(UnpaidInvoices(invoices)) == multiset(UnpaidInvoices(prefix)) + multiset{last};
      }
    }
  }

  /** The paid filter keeps exactly the paid invoices, each as often as it occurs. */
  lemma {:induction false} PaidInvoicesSpec(invoices: seq<StoredInvoice>)
    ensures forall x :: multiset(PaidInvoices(invoices))[x] == if IsPaid(x) then multiset(invoices)[x] else 0
    ensures forall x :: multiset(UnpaidInvoices(invoices))[x] == if IsPaid(x) then 0 else multiset(invoices)[x]
  {
    if invoices != [] {
      var n := |invoices| - 1;
      PaidInvoicesSpec(invoices[..n]);
      assert invoices == invoices[..n] + [invoices[n]];
    }
  }

  /** The three numbers the dashboard shows. */
  datatype Counters = Counters(total: nat, paid: nat, unpaid: nat)

  /** The counters before (or without) a fetch. */
  const Initial := Counters(0, 0, 0)

  /**
   * `fetchInvoices`. `fetched` is the outcome of reading the invoices:
   * `None` when the read rejects, and nothing catches that. Without a
   * signed-in user, or after a rejected read, the counters keep their
   * initial zeros; otherwise they count the fetched invoices.
   */
  function FetchInvoices(signedIn: bool, fetched: Option<seq<StoredInvoice>>): (c: Counters)
    ensures !signedIn || fetched.None? ==> c == Initial
    ensures signedIn && fetched.Some? ==>
      c.total == |fetched.value| && c.paid + c.unpaid == c.total
    ensures signedIn && fetched.Some? ==>
      c.paid == |PaidInvoices(fetched.value)| && c.unpaid == |UnpaidInvoices(fetched.value)|
  {
    if !signedIn then Initial
    else
      match fetched
      case None => Initial
      case Some(invoices) =>
        PaidUnpaidPartition(invoices);
        Counters(|invoices|, |PaidInvoices(invoices)|, |UnpaidInvoices(invoices)|)
  }

  /** When every fetched invoice is paid, nothing is unpaid. */
  lemma {:induction false} AllPaid(invoices: seq<StoredInvoice>)
    requires forall i :: 0 <= i < |invoices| ==> IsPaid(invoices[i])
    ensures FetchInvoices(true, Some(invoices)) == Counters(|invoices|, |invoices|, 0)
  {
    if invoices != [] {
      AllPaid(invoices[..|invoices| - 1]);
    }
  }
}
