/**
 * The inquiry record and the pure projections the dashboard derives from
 * the list of inquiries on every render: the status filter, the badge
 * colour of a status, and the total and per-status counts.
 */
module Inquiries {

  /** One loan inquiry as the remote API returns it. Only `status` is
      interpreted by the dashboard; every other field is display-only. */
  datatype Inquiry = Inquiry(
    id: string,
    fullName: string,
    email: string,
    phone: string,
    loanAmount: int,
    loanType: string,
    employmentType: string,
    monthlyIncome: int,
    status: string)

  /** The filter value that selects every inquiry. */
  const All: string := "all"

  /** The three statuses the dashboard offers and counts. */
  const Pending: string := "pending"
  const Approved: string := "approved"
  const Rejected: string := "rejected"

  predicate IsKnownStatus(status: string) {
    status == Pending || status == Approved || status == Rejected
  }

  /** The badge classes returned for a status. */
  const GreenBadge: string := "bg-green-100 text-green-800"
  const RedBadge: string := "bg-red-100 text-red-800"
  const YellowBadge: string := "bg-yellow-100 text-yellow-800"

  /** The colour of a status badge: green for approved, red for rejected,
      yellow for anything else (pending and unknown values alike). */
  function StatusColor(status: string): (c: string)
    ensures c == GreenBadge <==> status == Approved
    ensures c == RedBadge <==> status == Rejected
    ensures c == YellowBadge <==> status != Approved && status != Rejected
  {
    if status == Approved then GreenBadge
    else if status == Rejected then RedBadge
    else YellowBadge
  }

  /** `a` is obtained from `b` by deleting elements, keeping the order. */
  predicate IsSubsequence(a: seq<Inquiry>, b: seq<Inquiry>)
    decreases |b|
  {
    if a == [] then true
    else if b == [] then false
    else if a[0] == b[0] then IsSubsequence(a[1..], b[1..])
    else IsSubsequence(a, b[1..])
  }

  /** The inquiries whose status equals `status` exactly, in list order. */
  function FilterByStatus(xs: seq<Inquiry>, status: string): (r: seq<Inquiry>)
    ensures |r| <= |xs|
    ensures forall i :: 0 <= i < |r| ==> r[i].status == status
    ensures forall x :: x in r <==> x in xs && x.status == status
  {
    if xs == [] then []
    else
      assert xs == [xs[0]] + xs[1..];
      (if xs[0].status == status then [xs[0]] else []) + FilterByStatus(xs[1..], status)
  }

  lemma {:induction false} SubsequenceReflexive(xs: seq<Inquiry>)
    ensures IsSubsequence(xs, xs)
    decreases |xs|
  {
    if xs != [] {
      SubsequenceReflexive(xs[1..]);
    }
  }

  /** The filter result is an order-preserving selection from the input. */
  lemma {:induction false} FilterByStatusIsSubsequence(xs: seq<Inquiry>, status: string)
    ensures IsSubsequence(FilterByStatus(xs, status), xs)
    decreases |xs|
  {
    if xs != [] {
      FilterByStatusIsSubsequence(xs[1..], status);
      var rest := FilterByStatus(xs[1..], status);
      if xs[0].status == status {
        assert FilterByStatus(xs, status) == [xs[0]] + rest;
        assert ([xs[0]] + rest)[1..] == rest;
      } else {
        assert FilterByStatus(xs, status) == rest;
        assert rest != [] ==> rest[0].status == status;
      }
    }
  }

  /** Filtering distributes over concatenation. */
  lemma {:induction false} FilterByStatusAppend(a: seq<Inquiry>, b: seq<Inquiry>, status: string)
    ensures FilterByStatus(a + b, status) == FilterByStatus(a, status) + FilterByStatus(b, status)
    decreases |a|
  {
    if a == [] {
      assert a + b == b;
    } else {
      assert (a + b)[0] == a[0];
      assert (a + b)[1..] == a[1..] + b;
      FilterByStatusAppend(a[1..], b, status);
    }
  }

  /** Every occurrence of a matching inquiry is kept, every other one is dropped. */
  lemma {:induction false} FilterByStatusMultiset(xs: seq<Inquiry>, status: string, x: Inquiry)
    ensures multiset(FilterByStatus(xs, status))[x] ==
            if x.status == status then multiset(xs)[x] else 0
    decreases |xs|
  {
    if xs != [] {
      FilterByStatusMultiset(xs[1..], status, x);
      assert xs == [xs[0]] + xs[1..];
      assert multiset(xs) == multiset([xs[0]]) + multiset(xs[1..]);
    }
  }

  /** A list whose every element already matches is left as it is. */
  lemma {:induction false} FilterByStatusKeepsMatching(xs: seq<Inquiry>, status: string)
    requires forall i :: 0 <= i < |xs| ==> xs[i].status == status
    ensures FilterByStatus(xs, status) == xs
    decreases |xs|
  {
    if xs != [] {
      FilterByStatusKeepsMatching(xs[1..], status);
      assert xs == [xs[0]] + xs[1..];
    }
  }

  /** Filtering twice by the same status is filtering once. */
  lemma FilterByStatusIdempotent(xs: seq<Inquiry>, status: string)
    ensures FilterByStatus(FilterByStatus(xs, status), status) == FilterByStatus(xs, status)
  {
    FilterByStatusKeepsMatching(FilterByStatus(xs, status), status);
  }

  /** The rows the table shows for the selected filter value: every
      inquiry for `All`, otherwise the exact-status matches. */
  function Filtered(xs: seq<Inquiry>, selected: string): (r: seq<Inquiry>)
    ensures selected == All ==> r == xs
    ensures IsSubsequence(r, xs)
    ensures selected != All ==> forall x :: x in r <==> x in xs && x.status == selected
    ensures selected != All ==>
              forall x :: multiset(r)[x] == if x.status == selected then multiset(xs)[x] else 0
  {
    if selected == All then
      SubsequenceReflexive(xs);
      xs
    else
      FilterByStatusIsSubsequence(xs, selected);
      assert forall x :: multiset(FilterByStatus(xs, selected))[x] ==
                         if x.status == selected then multiset(xs)[x] else 0 by {
        forall x ensures multiset(FilterByStatus(xs, selected))[x] ==
                         if x.status == selected then multiset(xs)[x] else 0 {
          FilterByStatusMultiset(xs, selected, x);
        }
      }
      FilterByStatus(xs, selected)
  }

  /** The number shown on a status card: the length of the filter for that status. */
  function StatusCount(xs: seq<Inquiry>, status: string): (n: nat)
    ensures n <= |xs|
  {
    |FilterByStatus(xs, status)|
  }

  /** The four stat cards: the unfiltered total and one count per known status. */
  datatype Stats = Stats(total: nat, pending: nat, approved: nat, rejected: nat)

  lemma {:induction false} KnownCountsBounded(xs: seq<Inquiry>)
    ensures StatusCount(xs, Pending) + StatusCount(xs, Approved) + StatusCount(xs, Rejected) <= |xs|
    ensures StatusCount(xs, Pending) + StatusCount(xs, Approved) + StatusCount(xs, Rejected) == |xs|
            <==> forall i :: 0 <= i < |xs| ==> IsKnownStatus(xs[i].status)
    decreases |xs|
  {
    if xs != [] {
      KnownCountsBounded(xs[1..]);
      assert Pending != Approved && Pending != Rejected && Approved != Rejected;
      var s := xs[0].status;
      assert StatusCount(xs, Pending) == StatusCount(xs[1..], Pending) + (if s == Pending then 1 else 0);
      assert StatusCount(xs, Approved) == StatusCount(xs[1..], Approved) + (if s == Approved then 1 else 0);
      assert StatusCount(xs, Rejected) == StatusCount(xs[1..], Rejected) + (if s == Rejected then 1 else 0);
      if forall i :: 0 <= i < |xs| ==> IsKnownStatus(xs[i].status) {
        assert forall i :: 0 <= i < |xs[1..]| ==> IsKnownStatus(xs[1..][i].status) by {
          forall i | 0 <= i < |xs[1..]| ensures IsKnownStatus(xs[1..][i].status) {
            assert xs[1..][i] == xs[i + 1];
          }
        }
      } else if IsKnownStatus(s) {
        var j :| 0 <= j < |xs| && !IsKnownStatus(xs[j].status);
        assert j > 0 && xs[1..][j - 1] == xs[j];
      }
    }
  }

  /** The stat cards for a list of inquiries. */
  function StatsOf(xs: seq<Inquiry>): (st: Stats)
    ensures st.total == |xs|
    ensures st.pending + st.approved + st.rejected <= st.total
    ensures st.pending + st.approved + st.rejected == st.total
            <==> forall i :: 0 <= i < |xs| ==> IsKnownStatus(xs[i].status)
    ensures st.approved == |Filtered(xs, Approved)|
    ensures st.pending == |Filtered(xs, Pending)| && st.rejected == |Filtered(xs, Rejected)|
  {
    KnownCountsBounded(xs);
    Stats(|xs|, StatusCount(xs, Pending), StatusCount(xs, Approved), StatusCount(xs, Rejected))
  }
}
