/** The service list page: a search box and a status selector narrow the fetched services,
    each row shows a status label and colour, and a confirmed delete drops the row. */
module ServicesPage {
  import opened Seqs
  import opened Text
  import Toasts

  /** A fetched service row with its joined names (`customers?.full_name`,
      `service_types?.name`, `service_packages?.name`, `service_stages?.name`). */
  datatype Service = Service(
    id: string,
    customerName: Option<string>,
    typeName: Option<string>,
    packageName: Option<string>,
    stageName: Option<string>,
    completedAt: Option<string>,
    isCancelled: bool)

  /** The badge colours, one per branch of `getStatusColor`. */
  datatype Tone = Red | Teal | Blue | Yellow | Green

  const CancelledText := "İptal"
  const CompletedText := "Tamamlandı"
  const RegisteredStage := "Kayıt"
  const DetectionStage := "Tespit"
  const ClosingStage := "Kapanış"

  /** The search keeps a service whose customer, type or package name contains the term,
      ignoring case. */
  function MatchesSearch(s: Service, term: string): (b: bool)
    ensures b ==> s.customerName.Some? || s.typeName.Some? || s.packageName.Some?
    ensures term == "" ==> (b <==> s.customerName.Some? || s.typeName.Some? || s.packageName.Some?)
  {
    FieldMatches(s.customerName, term) || FieldMatches(s.typeName, term) || FieldMatches(s.packageName, term)
  }

  /** The status selector: `completed`, `cancelled` and `active` test the service; any other
      value keeps it. */
  function KeepsStatus(filter: string, s: Service): (b: bool)
    ensures filter !in {"completed", "cancelled", "active"} ==> b
    ensures filter == "completed" ==> (b <==> s.completedAt.Some? && s.completedAt.value != "")
    ensures filter == "cancelled" ==> (b <==> s.isCancelled)
    ensures filter == "active" ==> (b <==> !s.isCancelled && (s.completedAt.None? || s.completedAt.value == ""))
  {
    if filter == "completed" then Truthy(s.completedAt)
    else if filter == "cancelled" then s.isCancelled
    else if filter == "active" then !Truthy(s.completedAt) && !s.isCancelled
    else true
  }

  function SearchFor(term: string): Service -> bool
  {
    (s: Service) => MatchesSearch(s, term)
  }

  function StatusIs(filter: string): Service -> bool
  {
    (s: Service) => KeepsStatus(filter, s)
  }

  /** The rows a search term and a status choice leave visible: a row passes when the term
      is empty or matches, and the choice is `all` or keeps it. */
  function ShownBy(term: string, filter: string): (shown: Service -> bool)
    ensures forall s :: shown(s) ==> term == "" || MatchesSearch(s, term)
    ensures forall s :: shown(s) ==> filter == "all" || KeepsStatus(filter, s)
    ensures term == "" && filter == "all" ==> forall s :: shown(s)
  {
    (s: Service) => (term == "" || MatchesSearch(s, term)) && (filter == "all" || KeepsStatus(filter, s))
  }

  function Visible(services: seq<Service>, term: string, filter: string): (r: seq<Service>)
    ensures |r| <= |services|
    ensures forall s :: s in r ==> s in services
  {
    Filter(services, ShownBy(term, filter))
  }

  /** The visible rows are, in their original order, exactly the services that pass. */
  lemma {:induction false} VisibleIsOrderedSelection(services: seq<Service>, term: string, filter: string)
    ensures IsSubsequence(Visible(services, term, filter), services)
    ensures forall s :: s in Visible(services, term, filter) <==>
              s in services && (term == "" || MatchesSearch(s, term)) && (filter == "all" || KeepsStatus(filter, s))
  {
    FilterIsSubsequence(services, ShownBy(term, filter));
  }

  /** No search and no status choice shows every service. */
  lemma {:induction false} NoFilterShowsAll(services: seq<Service>)
    ensures Visible(services, "", "all") == services
  {
    FilterKeepsAll(services, ShownBy("", "all"));
  }

  /** An unrecognised status value narrows nothing. */
  lemma {:induction false} UnknownStatusKeepsAll(services: seq<Service>, term: string, filter: string)
    requires filter !in {"completed", "cancelled", "active"}
    ensures Visible(services, term, filter) == Visible(services, term, "all")
  {
    FilterExtensional(services, ShownBy(term, filter), ShownBy(term, "all"));
  }

  /** `active` shares no service with `completed` or `cancelled`, and every service is in
      one of the three. */
  lemma ActiveIsDisjoint(s: Service)
    ensures !(KeepsStatus("active", s) && KeepsStatus("completed", s))
    ensures !(KeepsStatus("active", s) && KeepsStatus("cancelled", s))
    ensures KeepsStatus("active", s) || KeepsStatus("completed", s) || KeepsStatus("cancelled", s)
  {
  }

  /** `getStatusText`: cancellation first, then completion, then the stage name or `Kayıt`. */
  function StatusText(s: Service): (text: string)
    ensures text != ""
    ensures s.isCancelled ==> text == CancelledText
    ensures !s.isCancelled && Truthy(s.completedAt) ==> text == CompletedText
    ensures !s.isCancelled && !Truthy(s.completedAt) ==> text == OrDefault(s.stageName, RegisteredStage)
  {
    if s.isCancelled then CancelledText
    else if Truthy(s.completedAt) then CompletedText
    else OrDefault(s.stageName, RegisteredStage)
  }

  /** The `colors[stage] || colors['Kayıt']` lookup. */
  function StageTone(stage: Option<string>): (t: Tone)
    ensures t in {Blue, Yellow, Green}
    ensures t == Yellow <==> stage == Some(DetectionStage)
    ensures t == Green <==> stage == Some(ClosingStage)
  {
    if stage == Some(RegisteredStage) then Blue
    else if stage == Some(DetectionStage) then Yellow
    else if stage == Some(ClosingStage) then Green
    else Blue
  }

  /** `getStatusColor`: red exactly for cancelled services, teal exactly for completed ones
      that are not cancelled, otherwise the stage colour with `Kayıt` as the fallback. */
  function StatusColor(s: Service): (t: Tone)
    ensures t == Red <==> s.isCancelled
    ensures t == Teal <==> !s.isCancelled && Truthy(s.completedAt)
    ensures !s.isCancelled && !Truthy(s.completedAt) ==> t == StageTone(s.stageName)
  {
    if s.isCancelled then Red
    else if Truthy(s.completedAt) then Teal
    else StageTone(s.stageName)
  }

  /** The label and the status choices agree: `cancelled` rows read `İptal`, `completed`
      rows that are not cancelled read `Tamamlandı`, and `active` rows show their stage. */
  lemma StatusTextAgreesWithFilter(s: Service)
    ensures KeepsStatus("cancelled", s) ==> StatusText(s) == CancelledText && StatusColor(s) == Red
    ensures KeepsStatus("completed", s) && !s.isCancelled ==> StatusText(s) == CompletedText && StatusColor(s) == Teal
    ensures KeepsStatus("active", s) ==> StatusText(s) == OrDefault(s.stageName, RegisteredStage)
                                         && StatusColor(s) == StageTone(s.stageName)
  {
  }

  function IdOf(s: Service): string
  {
    s.id
  }

  datatype DeleteModal = DeleteModal(isOpen: bool, serviceId: string, customerName: string)

  const ClosedModal := DeleteModal(false, "", "")

  /** The page's state fields; `filteredServices` is kept by the filter effect. */
  class Page {
    var services: seq<Service>
    var filteredServices: seq<Service>
    var searchTerm: string
    var statusFilter: string
    var deleteModal: DeleteModal

    /** The effect has run for the current rows, term and status choice. */
    ghost predicate Valid()
      reads this
    {
      filteredServices == Visible(services, searchTerm, statusFilter)
    }

    constructor ()
      ensures Valid()
      ensures services == [] && searchTerm == "" && statusFilter == "all" && deleteModal == ClosedModal
    {
      services := [];
      filteredServices := [];
      searchTerm := "";
      statusFilter := "all";
      deleteModal := ClosedModal;
    }

    /** The filter effect: `filtered` starts as all services and is narrowed by the search,
        then by the status choice. */
    method RunFilterEffect()
      modifies this`filteredServices
      ensures Valid()
    {
      var term, filter := searchTerm, statusFilter;
      var filtered := services;
      if term != "" {
        filtered := Filter(filtered, SearchFor(term));
      }
      if filter != "all" {
        filtered := Filter(filtered, StatusIs(filter));
      }
      if term != "" && filter != "all" {
        FilterFilter(services, SearchFor(term), StatusIs(filter), ShownBy(term, filter));
      } else if term != "" {
        FilterExtensional(services, SearchFor(term), ShownBy(term, filter));
      } else if filter != "all" {
        FilterExtensional(services, StatusIs(filter), ShownBy(term, filter));
      } else {
        FilterKeepsAll(services, ShownBy(term, filter));
      }
      filteredServices := filtered;
    }

    /** `setServices(data)` after a fetch, followed by the effect. */
    method SetServices(rows: seq<Service>)
      modifies this`services, this`filteredServices
      ensures services == rows && Valid()
    {
      services := rows;
      RunFilterEffect();
    }

    /** Typing in the search box, followed by the effect. */
    method SetSearchTerm(term: string)
      modifies this`searchTerm, this`filteredServices
      ensures searchTerm == term && Valid()
    {
      searchTerm := term;
      RunFilterEffect();
    }

    /** Choosing a status, followed by the effect. */
    method SetStatusFilter(filter: string)
      modifies this`statusFilter, this`filteredServices
      ensures statusFilter == filter && Valid()
    {
      statusFilter := filter;
      RunFilterEffect();
    }

    /** The row's delete button opens the modal for that service. */
    method RequestDelete(s: Service)
      modifies this`deleteModal
      ensures deleteModal == DeleteModal(true, s.id, OrDefault(s.customerName, ""))
    {
      deleteModal := DeleteModal(true, s.id, OrDefault(s.customerName, ""));
    }

    /** `handleDelete`: when the backend delete succeeds the row is dropped; the toast tells
        which happened; `finally` closes the modal either way. */
    method HandleDelete(serviceId: string, deleteFailed: bool) returns (notice: Toasts.Notice)
      modifies this`services, this`filteredServices, this`deleteModal
      ensures services == if deleteFailed then old(services) else RemoveByKey(old(services), IdOf, serviceId)
      ensures notice == if deleteFailed then Toasts.Notice("Servis silinirken hata oluştu", Toasts.Error)
                        else Toasts.Notice("Servis silindi", Toasts.Success)
      ensures deleteModal == ClosedModal && Valid()
    {
      if !deleteFailed {
        services := RemoveByKey(services, IdOf, serviceId);
        notice := Toasts.Notice("Servis silindi", Toasts.Success);
      } else {
        notice := Toasts.Notice("Servis silinirken hata oluştu", Toasts.Error);
      }
      deleteModal := ClosedModal;
      RunFilterEffect();
    }
  }
}
