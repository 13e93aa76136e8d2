/** The customer list page: a search box narrows the fetched customers, and a confirmed
    delete drops the customer's rows. */
module CustomersPage {
  import opened Seqs
  import opened Text
  import Toasts

  /** A fetched customer row; every field but the id may be absent. */
  datatype Customer = Customer(
    id: string,
    fullName: Option<string>,
    phone: Option<string>,
    email: Option<string>,
    companyName: Option<string>)

  function IdOf(c: Customer): string
  {
    c.id
  }

  /** Name, email and company are compared ignoring case; the phone is compared as typed. */
  function MatchesSearch(c: Customer, term: string): (b: bool)
    ensures b ==> c.fullName.Some? || c.phone.Some? || c.email.Some? || c.companyName.Some?
    ensures term == "" ==> (b <==> c.fullName.Some? || c.phone.Some? || c.email.Some? || c.companyName.Some?)
  {
    || FieldMatches(c.fullName, term)
    || FieldMatchesExactly(c.phone, term)
    || FieldMatches(c.email, term)
    || FieldMatches(c.companyName, term)
  }

  function SearchFor(term: string): Customer -> bool
  {
    (c: Customer) => MatchesSearch(c, term)
  }

  /** The list the filter effect shows: everything for an empty term, else the matches. */
  function Search(customers: seq<Customer>, term: string): (r: seq<Customer>)
    ensures term == "" ==> r == customers
    ensures |r| <= |customers|
    ensures forall c :: c in r ==> c in customers
  {
    if term == "" then customers else Filter(customers, SearchFor(term))
  }

  /** The result keeps the original order and holds exactly the customers that pass. */
  lemma {:induction false} SearchIsOrderedSelection(customers: seq<Customer>, term: string)
    ensures IsSubsequence(Search(customers, term), customers)
    ensures forall c :: c in Search(customers, term) <==> c in customers && (term == "" || MatchesSearch(c, term))
  {
    if term == "" {
      FilterKeepsAll(customers, (c: Customer) => true);
      FilterIsSubsequence(customers, (c: Customer) => true);
    } else {
      FilterIsSubsequence(customers, SearchFor(term));
    }
  }

  /** The letter case of the term matters only through the phone: name, email and company
      ignore it, so whenever the phone test gives the same answer for the lowered term, so
      does the whole search. */
  lemma SearchIgnoresCaseOutsidePhone(c: Customer, term: string)
    ensures FieldMatchesExactly(c.phone, Lower(term)) == FieldMatchesExactly(c.phone, term) ==>
              MatchesSearch(c, Lower(term)) == MatchesSearch(c, term)
    ensures c.phone.None? ==> MatchesSearch(c, Lower(term)) == MatchesSearch(c, term)
  {
    FieldMatchesIgnoresTermCase(c.fullName, term);
    FieldMatchesIgnoresTermCase(c.email, term);
    FieldMatchesIgnoresTermCase(c.companyName, term);
  }

  /** A customer with none of the four fields never matches a non-empty term. */
  lemma AbsentFieldsNeverMatch(customers: seq<Customer>, c: Customer, term: string)
    requires term != ""
    requires c.fullName.None? && c.phone.None? && c.email.None? && c.companyName.None?
    ensures c !in Search(customers, term)
  {
  }

  /** The same text matches the search in the email field but not in the phone field when
      the term's case differs. */
  lemma PhoneIsCaseSensitive()
    ensures !MatchesSearch(Customer("1", None, Some("A1"), None, None), "a1")
    ensures MatchesSearch(Customer("2", None, None, Some("A1"), None), "a1")
  {
    assert Lower("A1") == "a1";
    assert "a1" <= Lower("A1");
    assert !Contains("1", "a1") by {
      assert !("a1" <= "1");
      assert !Contains("", "a1");
    }
  }

  datatype DeleteModal = DeleteModal(isOpen: bool, customerId: string, customerName: string)

  const ClosedModal := DeleteModal(false, "", "")

  /** The page's state fields; `filteredCustomers` is kept by the search effect. */
  class Page {
    var customers: seq<Customer>
    var filteredCustomers: seq<Customer>
    var searchTerm: string
    var deleteModal: DeleteModal

    /** The effect has run for the current rows and term. */
    ghost predicate Valid()
      reads this
    {
      filteredCustomers == Search(customers, searchTerm)
    }

    constructor ()
      ensures Valid()
      ensures customers == [] && searchTerm == "" && deleteModal == ClosedModal
    {
      customers := [];
      filteredCustomers := [];
      searchTerm := "";
      deleteModal := ClosedModal;
    }

    /** The search effect: start from all customers and filter when a term is typed. */
    method RunSearchEffect()
      modifies this`filteredCustomers
      ensures Valid()
    {
      var filtered := customers;
      if searchTerm != "" {
        filtered := Filter(filtered, SearchFor(searchTerm));
      }
      filteredCustomers := filtered;
    }

    /** `setCustomers(data)` after a fetch, followed by the effect. */
    method SetCustomers(rows: seq<Customer>)
      modifies this`customers, this`filteredCustomers
      ensures customers == rows && Valid()
    {
      customers := rows;
      RunSearchEffect();
    }

    /** Typing in the search box, followed by the effect. */
    method SetSearchTerm(term: string)
      modifies this`searchTerm, this`filteredCustomers
      ensures searchTerm == term && Valid()
    {
      searchTerm := term;
      RunSearchEffect();
    }

    /** `handleDelete`: a successful backend delete drops the rows with that id; the toast
        tells which happened; `finally` closes the modal either way. */
    method HandleDelete(customerId: string, deleteFailed: bool) returns (notice: Toasts.Notice)
      modifies this`customers, this`filteredCustomers, this`deleteModal
      ensures customers == if deleteFailed then old(customers) else RemoveByKey(old(customers), IdOf, customerId)
      ensures notice == if deleteFailed then Toasts.Notice("Müşteri silinirken hata oluştu", Toasts.Error)
                        else Toasts.Notice("Müşteri silindi", Toasts.Success)
      ensures deleteModal == ClosedModal && Valid()
    {
      if !deleteFailed {
        customers := RemoveByKey(customers, IdOf, customerId);
        notice := Toasts.Notice("Müşteri silindi", Toasts.Success);
      } else {
        notice := Toasts.Notice("Müşteri silinirken hata oluştu", Toasts.Error);
      }
      deleteModal := ClosedModal;
      RunSearchEffect();
    }
  }
}
