/**
  The freeze that a live invoice puts on operational history: a change may not be dated on or
  before the end of a non-void invoice of the same customer whose scope it falls in.
 */
module SourceFreeze {
  import opened Wrappers

  /** What the freeze reads of an invoice. */
  datatype Invoice = Invoice(customer: int, warehouse: Option<int>, containerType: Option<string>,
                             periodEnd: int, void: bool, lineContainers: set<string>)

  /** A change of billing sources; an empty text is an absent container or type. */
  datatype Mutation = Mutation(customer: int, day: int, locations: set<int>, container: string, containerType: string)

  function Places(m: Mutation): set<int> {
    set l | l in m.locations && 0 < l
  }

  predicate Touches(invoice: Invoice, m: Mutation) {
    if Places(m) != {} then
      || invoice.warehouse.None?
      || invoice.warehouse.value in Places(m)
      || (m.container != "" && m.container in invoice.lineContainers)
    else m.container != "" ==> m.container in invoice.lineContainers
  }

  predicate Blocks(invoice: Invoice, m: Mutation) {
    && invoice.customer == m.customer
    && !invoice.void
    && m.day <= invoice.periodEnd
    && Touches(invoice, m)
    && (m.containerType == "" || invoice.containerType.None? || invoice.containerType.value == m.containerType)
  }

  predicate Frozen(invoices: seq<Invoice>, m: Mutation) {
    exists i :: 0 <= i < |invoices| && Blocks(invoices[i], m)
  }

  /** The mutations are looked at one by one; the first frozen one rejects them all. */
  method CheckMutationsAllowed(invoices: seq<Invoice>, mutations: seq<Mutation>) returns (allowed: bool)
    ensures allowed <==> forall k :: 0 <= k < |mutations| ==> !Frozen(invoices, mutations[k])
  {
    for k := 0 to |mutations|
      invariant forall j :: 0 <= j < k ==> !Frozen(invoices, mutations[j])
    {
      var found := false;
      for i := 0 to |invoices|
        invariant found <==> exists j :: 0 <= j < i && Blocks(invoices[j], mutations[k])
      {
        if Blocks(invoices[i], mutations[k]) {
          found := true;
        }
      }
      if found {
        return false;
      }
    }
    return true;
  }

  /** A live invoice for all container types that bills the place, or has the container on a line. */
  predicate Guards(invoice: Invoice, customer: int, location: int, container: string) {
    && invoice.customer == customer && !invoice.void && invoice.containerType.None?
    && (invoice.warehouse.None? || invoice.warehouse.value == location
        || (container != "" && container in invoice.lineContainers))
  }

  /** Such an invoice blocks a change there exactly when it is dated within or before the period. */
  lemma GuardsBlocksPast(invoice: Invoice, m: Mutation, location: int)
    requires location in m.locations && 0 < location && Guards(invoice, m.customer, location, m.container)
    ensures Blocks(invoice, m) <==> m.day <= invoice.periodEnd
  {
    assert location in Places(m);
  }

  /** A live invoice for all warehouses and all container types. */
  predicate CoversAll(invoice: Invoice, customer: int) {
    invoice.customer == customer && !invoice.void && invoice.warehouse.None? && invoice.containerType.None?
  }

  /** Under such an invoice a located change is blocked exactly when it is dated within or before the period. */
  lemma CoversAllBlocksPast(invoice: Invoice, m: Mutation)
    requires CoversAll(invoice, m.customer) && Places(m) != {}
    ensures Blocks(invoice, m) <==> m.day <= invoice.periodEnd
  {
  }
}
