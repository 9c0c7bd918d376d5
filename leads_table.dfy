/** The leads table: a status filter over the lead list and the per-row status
    selector. */
module Leads {

  import opened Types
  import Seqs

  /** The filter selector's value: "all" or one status. */
  datatype StatusFilter = All | Only(status: LeadStatus)

  /** `filteredLeads`. */
  function Filtered(leads: seq<Lead>, filter: StatusFilter): (r: seq<Lead>)
    ensures filter.All? ==> r == leads
    ensures filter.Only? ==> forall i :: 0 <= i < |r| ==> r[i] in leads && r[i].status == filter.status
    ensures filter.Only? ==> forall i :: 0 <= i < |leads| && leads[i].status == filter.status ==> leads[i] in r
    ensures filter.Only? ==> forall l :: multiset(r)[l] == if l.status == filter.status then multiset(leads)[l] else 0
    ensures Seqs.Subsequence(r, leads)
    ensures |r| <= |leads|
  {
    if filter.All? then
      Seqs.SubsequenceOfItself(leads);
      leads
    else
      var keep := (l: Lead) => l.status == filter.status;
      Seqs.FilterIsSubsequence(leads, keep);
      Seqs.FilterMultiset(leads, keep);
      Seqs.Filter(leads, keep)
  }

  /** `prev.map((lead) => lead.id === leadId ? { ...lead, status, updatedAt } : lead)`. */
  function StatusChanged(leads: seq<Lead>, id: string, status: LeadStatus, now: nat): (r: seq<Lead>)
    ensures |r| == |leads|
    ensures forall i :: 0 <= i < |leads| && leads[i].id == id ==>
              r[i] == leads[i].(status := status, updatedAt := now)
    ensures forall i :: 0 <= i < |leads| && leads[i].id != id ==> r[i] == leads[i]
  {
    Seqs.Update(leads, (l: Lead) => l.id == id, (l: Lead) => l.(status := status, updatedAt := now))
  }

  function Ids(leads: seq<Lead>): (r: seq<string>)
    ensures |r| == |leads| && forall i :: 0 <= i < |leads| ==> r[i] == leads[i].id
  {
    if leads == [] then [] else [leads[0].id] + Ids(leads[1..])
  }

  /** Changing a status keeps the list's length and id order, touches only the
      status and `updatedAt` fields, and does nothing for an unknown id. */
  lemma StatusChangeShape(leads: seq<Lead>, id: string, status: LeadStatus, now: nat)
    ensures Ids(StatusChanged(leads, id, status, now)) == Ids(leads)
    ensures (forall i :: 0 <= i < |leads| ==> leads[i].id != id) ==> StatusChanged(leads, id, status, now) == leads
  {
  }

  /** The component's state. */
  class LeadsTable {
    var leads: seq<Lead>
    var filter: StatusFilter

    /** The table starts from the given leads with no filter. */
    constructor (initial: seq<Lead>)
      ensures leads == initial && filter == All
    {
      leads := initial;
      filter := All;
    }

    /** The rows shown; "Showing n of m leads" reports |Shown()| of |leads|. */
    function Shown(): (r: seq<Lead>)
      reads this
      ensures |r| <= |leads|
    {
      Filtered(leads, filter)
    }

    /** The filter selector's `onValueChange`. */
    method SetFilter(f: StatusFilter)
      modifies this
      ensures filter == f && leads == old(leads)
    {
      filter := f;
    }

    /** `handleStatusChange`. */
    method ChangeStatus(id: string, status: LeadStatus, now: nat)
      modifies this
      ensures leads == StatusChanged(old(leads), id, status, now)
      ensures filter == old(filter)
      ensures Ids(leads) == Ids(old(leads))
    {
      leads := StatusChanged(leads, id, status, now);
      StatusChangeShape(old(leads), id, status, now);
    }
  }
}
