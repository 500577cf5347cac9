/** The search box of the customer list (customers/views.py,
    `CustomerListView.get_queryset`). */
module CustomerSearch {

  import opened Text

  /** The two columns the search looks at. */
  datatype Customer = Customer(id: nat, name: string, cnic: string)

  /** `name__icontains=q | cnic__icontains=q`. */
  predicate Matches(c: Customer, q: string)
  {
    ContainsIgnoreCase(c.name, q) || ContainsIgnoreCase(c.cnic, q)
  }

  function FilterMatching(cs: seq<Customer>, q: string): (r: seq<Customer>)
    ensures forall c :: c in r <==> c in cs && Matches(c, q)
    ensures forall c :: multiset(r)[c] == if Matches(c, q) then multiset(cs)[c] else 0
    ensures multiset(r) <= multiset(cs)
  {
    if cs == [] then []
    else
      var rest := FilterMatching(cs[1..], q);
      assert cs == [cs[0]] + cs[1..];
      if Matches(cs[0], q) then [cs[0]] + rest else rest
  }

  /** `get_queryset`: every customer for an empty query, otherwise those whose
      name or CNIC contains the query, ignoring case; table order is kept. */
  function Search(cs: seq<Customer>, q: string): (r: seq<Customer>)
    ensures q == "" ==> r == cs
    ensures q != "" ==> forall c :: c in r <==> c in cs && Matches(c, q)
    ensures q != "" ==> forall c :: multiset(r)[c] == if Matches(c, q) then multiset(cs)[c] else 0
    ensures multiset(r) <= multiset(cs)
  {
    if q == "" then cs else FilterMatching(cs, q)
  }

  /** The empty query would match every customer anyway. */
  lemma EmptyQueryMatchesAll(c: Customer)
    ensures Matches(c, "")
  {
    assert SliceAt(Lower(c.name), 0, Lower(""));
  }

  /** A longer query narrows the result: if `q1` occurs in `q2`, every
      customer found for `q2` is also found for `q1`. */
  lemma LongerQueryNarrows(cs: seq<Customer>, q1: string, q2: string)
    requires Contains(q2, q1)
    ensures forall c :: c in Search(cs, q2) ==> c in Search(cs, q1)
  {
    LowerPreservesContains(q2, q1);
    forall c | c in Search(cs, q2)
      ensures c in Search(cs, q1)
    {
      if q2 == "" {
        assert |q1| == 0;
      } else if q1 != "" {
        if ContainsIgnoreCase(c.name, q2) {
          ContainsTransitive(Lower(c.name), Lower(q2), Lower(q1));
        } else {
          ContainsTransitive(Lower(c.cnic), Lower(q2), Lower(q1));
        }
      }
    }
  }
}
