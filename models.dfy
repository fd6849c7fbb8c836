/**
 * The entity model of the pharmacy chatbot: prescriptions, known pharmacies,
 * new leads and the per-call conversation context, with their derived
 * properties (total volume, location, high-volume flag, completeness,
 * returning-customer detection and the name used to address the caller).
 */
module Models {
  import opened Wrappers

  /** One drug and how many prescriptions of it the pharmacy fills (never negative). */
  datatype Prescription = Prescription(drug: string, count: nat)

  /** A directory record; read-only once fetched. */
  datatype Pharmacy = Pharmacy(
    id: int,
    name: string,
    phone: string,
    email: Option<string>,
    city: string,
    state: string,
    prescriptions: seq<Prescription>)

  /**
   * What is known about an unrecognised caller. The volume is an `int` rather
   * than a `nat`: values extracted from the language model are assigned
   * without validation.
   */
  datatype NewPharmacyLead = NewPharmacyLead(
    phone: string,
    name: Option<string>,
    contactPerson: Option<string>,
    city: Option<string>,
    state: Option<string>,
    estimatedRxVolume: Option<int>,
    preferredContact: Option<string>)

  /** Python truthiness of an optional string: set and not empty. */
  predicate Present(field: Option<string>) {
    field.Some? && field.value != ""
  }

  /** Python truthiness of an optional integer: set and not zero. */
  predicate VolumePresent(volume: Option<int>) {
    volume.Some? && volume.value != 0
  }

  /** Sum of the counts, `sum(p.count for p in prescriptions)`. */
  function SumCounts(prescriptions: seq<Prescription>): (total: nat)
    ensures prescriptions == [] ==> total == 0
  {
    if prescriptions == [] then 0 else prescriptions[0].count + SumCounts(prescriptions[1..])
  }

  /** `total_rx_volume`: the sum of the counts, so no single count exceeds it. */
  function TotalRxVolume(p: Pharmacy): (total: nat)
    ensures p.prescriptions == [] ==> total == 0
    ensures forall i :: 0 <= i < |p.prescriptions| ==> p.prescriptions[i].count <= total
  {
    EveryCountBoundedByTotal(p.prescriptions);
    SumCounts(p.prescriptions)
  }

  /** `f"{city}, {state}"`: the city and the state can be read back from either end. */
  function Location(p: Pharmacy): (loc: string)
    ensures |loc| == |p.city| + 2 + |p.state|
    ensures loc[..|p.city|] == p.city
    ensures loc[|p.city|..|p.city| + 2] == ", "
    ensures loc[|p.city| + 2..] == p.state
  {
    p.city + ", " + p.state
  }

  /** Strictly more than 100 prescriptions in total. */
  predicate IsHighVolume(p: Pharmacy): (high: bool)
    ensures high ==> p.prescriptions != []
  {
    TotalRxVolume(p) > 100
  }

  /** Name, contact person, city and state are all present; the volume is not consulted. */
  predicate IsComplete(lead: NewPharmacyLead): (complete: bool)
    ensures complete ==> lead.name.Some? && lead.contactPerson.Some? && lead.city.Some? && lead.state.Some?
  {
    Present(lead.name) && Present(lead.contactPerson) && Present(lead.city) && Present(lead.state)
  }

  /** A lead that knows nothing but the caller's phone number. */
  function EmptyLead(phone: string): (lead: NewPharmacyLead)
    ensures lead.phone == phone && !IsComplete(lead) && !VolumePresent(lead.estimatedRxVolume)
  {
    NewPharmacyLead(phone, None, None, None, None, None, None)
  }

  /** The additive property of the total: splitting the list splits the sum. */
  lemma {:induction false} SumCountsAppend(a: seq<Prescription>, b: seq<Prescription>)
    ensures SumCounts(a + b) == SumCounts(a) + SumCounts(b)
  {
    if a != [] {
      assert (a + b)[1..] == a[1..] + b;
      SumCountsAppend(a[1..], b);
    } else {
      assert a + b == b;
    }
  }

  /** Appending one prescription raises the total by exactly its count. */
  lemma AppendPrescription(p: Pharmacy, x: Prescription)
    ensures TotalRxVolume(p.(prescriptions := p.prescriptions + [x])) == TotalRxVolume(p) + x.count
  {
    SumCountsAppend(p.prescriptions, [x]);
    assert SumCounts([x]) == x.count;
  }

  /** Every single count is bounded by the total. */
  lemma {:induction false} CountBoundedByTotal(ps: seq<Prescription>, i: nat)
    requires i < |ps|
    ensures ps[i].count <= SumCounts(ps)
  {
    if i > 0 {
      CountBoundedByTotal(ps[1..], i - 1);
    }
  }

  /** Every single count is at most the total. */
  lemma EveryCountBoundedByTotal(ps: seq<Prescription>)
    ensures forall i :: 0 <= i < |ps| ==> ps[i].count <= SumCounts(ps)
  {
    forall i | 0 <= i < |ps|
      ensures ps[i].count <= SumCounts(ps)
    {
      CountBoundedByTotal(ps, i);
    }
  }

  /** Taking out the element at `i` leaves the multiset minus that element. */
  lemma MultisetRemove<T>(b: seq<T>, i: nat)
    requires i < |b|
    ensures multiset(b[..i] + b[i + 1..]) == multiset(b) - multiset{b[i]}
  {
    assert b == b[..i] + [b[i]] + b[i + 1..];
    assert multiset(b) == multiset(b[..i]) + multiset{b[i]} + multiset(b[i + 1..]);
  }

  /** Taking out the prescription at `i` lowers the total by its count. */
  lemma SumCountsRemove(b: seq<Prescription>, i: nat)
    requires i < |b|
    ensures SumCounts(b) == b[i].count + SumCounts(b[..i] + b[i + 1..])
  {
    var left, x, right := b[..i], b[i], b[i + 1..];
    assert b == left + ([x] + right);
    SumCountsAppend(left, [x] + right);
    assert ([x] + right)[1..] == right;
    SumCountsAppend(left, right);
  }

  /** The total does not depend on the order of the prescriptions. */
  lemma {:induction false} SumCountsPermutation(a: seq<Prescription>, b: seq<Prescription>)
    requires multiset(a) == multiset(b)
    ensures SumCounts(a) == SumCounts(b)
    decreases |a|
  {
    if a != [] {
      var x := a[0];
      assert x in multiset(b) by {
        assert x in multiset(a);
      }
      var i :| 0 <= i < |b| && b[i] == x;
      SumCountsRemove(b, i);
      MultisetRemove(b, i);
      assert multiset(a[1..]) == multiset(a) - multiset{x} by {
        assert a == [x] + a[1..];
      }
      SumCountsPermutation(a[1..], b[..i] + b[i + 1..]);
    }
  }

  /** Adding prescriptions never turns a high-volume pharmacy into a regular one. */
  lemma HighVolumeKeptByMorePrescriptions(p: Pharmacy, more: seq<Prescription>)
    requires IsHighVolume(p)
    ensures IsHighVolume(p.(prescriptions := p.prescriptions + more))
  {
    SumCountsAppend(p.prescriptions, more);
  }

  /** The pharmacy threshold is strict: a total of exactly 100 is regular, 101 is high-volume. */
  lemma HighVolumeBoundary(p: Pharmacy)
    ensures p.prescriptions == [Prescription("DrugX", 60), Prescription("DrugY", 40)] ==> !IsHighVolume(p)
    ensures p.prescriptions == [Prescription("DrugX", 60), Prescription("DrugY", 41)] ==> IsHighVolume(p)
  {
    if p.prescriptions == [Prescription("DrugX", 60), Prescription("DrugY", 40)] {
      assert SumCounts(p.prescriptions[1..]) == 40;
    }
    if p.prescriptions == [Prescription("DrugX", 60), Prescription("DrugY", 41)] {
      assert SumCounts(p.prescriptions[1..]) == 41;
    }
  }

  /** Completeness ignores the volume and the preferred contact method. */
  lemma CompletenessIgnoresVolumeAndContactMethod(lead: NewPharmacyLead, volume: Option<int>, contact: Option<string>)
    ensures IsComplete(lead.(estimatedRxVolume := volume, preferredContact := contact)) == IsComplete(lead)
  {
  }

  /**
   * The state of one conversation. `pharmacy` and `newLead` are assigned by
   * conversation set-up; the chatbot appends to `messages` and fills in the lead.
   */
  class ConversationContext {
    const callerPhone: string
    var pharmacy: Option<Pharmacy>
    var newLead: Option<NewPharmacyLead>
    var conversationStage: string
    var messages: seq<string>

    constructor (callerPhone: string)
      ensures this.callerPhone == callerPhone
      ensures pharmacy == None && newLead == None
      ensures conversationStage == "greeting" && messages == []
    {
      this.callerPhone := callerPhone;
      pharmacy := None;
      newLead := None;
      conversationStage := "greeting";
      messages := [];
    }

    /** Exactly one of a known pharmacy and a new lead is set. */
    ghost predicate Initialized()
      reads this
    {
      pharmacy.Some? != newLead.Some?
    }

    /** A returning customer is one whose pharmacy is known (`is not None`). */
    predicate IsReturningCustomer(): (returning: bool)
      reads this
      ensures returning <==> pharmacy != None
    {
      pharmacy.Some?
    }

    /** The pharmacy's name, else the lead's contact person if given, else "there". */
    function CallerName(): (name: string)
      reads this
      ensures IsReturningCustomer() ==> name == pharmacy.value.name
      ensures !IsReturningCustomer() && newLead.Some? && Present(newLead.value.contactPerson) ==>
                name == newLead.value.contactPerson.value
      ensures !IsReturningCustomer() && !(newLead.Some? && Present(newLead.value.contactPerson)) ==>
                name == "there"
    {
      if pharmacy.Some? then pharmacy.value.name
      else if newLead.Some? && Present(newLead.value.contactPerson) then newLead.value.contactPerson.value
      else "there"
    }
  }
}
