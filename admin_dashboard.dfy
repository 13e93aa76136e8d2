/** The admin dashboard: four counters read from the backend and a list of recent services,
    each with its own status label and colour. Its status rules differ from the services
    page: they look at completion only in the closing stage and show other stages as named. */
module AdminDashboard {
  import opened Seqs
  import opened Text
  import ServicesPage

  type Service = ServicesPage.Service
  type Tone = ServicesPage.Tone

  /** The four `count` results; a count the backend does not report is `None`. */
  datatype Counts = Counts(customers: Option<int>, services: Option<int>, completed: Option<int>, active: Option<int>)

  datatype Stats = Stats(totalCustomers: int, totalServices: int, completedServices: int, activeServices: int)

  /** `count || 0`: a missing count is zero, and a reported count (zero included) is kept. */
  function StatOrZero(count: Option<int>): (n: int)
    ensures count.Some? ==> n == count.value
    ensures count.None? ==> n == 0
  {
    match count
    case None => 0
    case Some(c) => if c != 0 then c else 0
  }

  /** The `setStats` call after the counts arrive. */
  function StatsOf(counts: Counts): (s: Stats)
    ensures s.totalCustomers == StatOrZero(counts.customers) && s.totalServices == StatOrZero(counts.services)
    ensures s.completedServices == StatOrZero(counts.completed) && s.activeServices == StatOrZero(counts.active)
  {
    Stats(StatOrZero(counts.customers), StatOrZero(counts.services), StatOrZero(counts.completed), StatOrZero(counts.active))
  }

  /** The initial state, which also stays when the counts cannot be fetched. */
  function InitialStats(): (s: Stats)
    ensures s.totalCustomers == 0 && s.totalServices == 0
    ensures s.completedServices == 0 && s.activeServices == 0
  {
    Stats(0, 0, 0, 0)
  }

  /** No reported count leaves every counter at its initial zero. */
  lemma NothingReportedIsInitial()
    ensures StatsOf(Counts(None, None, None, None)) == InitialStats()
  {
  }

  /** `getStatusText` of the dashboard. The stage name is `service_stages?.name`, which may be
      absent: then no text is shown. */
  function StatusText(stage: Option<string>, completedAt: Option<string>, isCancelled: bool): (text: Option<string>)
    ensures isCancelled ==> text == Some(ServicesPage.CancelledText)
    ensures !isCancelled && stage == Some(ServicesPage.ClosingStage) ==>
              text == Some(if Truthy(completedAt) then ServicesPage.CompletedText else ServicesPage.ClosingStage)
    ensures !isCancelled && stage != Some(ServicesPage.ClosingStage) ==> text == stage
  {
    if isCancelled then Some(ServicesPage.CancelledText)
    else if stage == Some(ServicesPage.ClosingStage) then
      Some(if Truthy(completedAt) then ServicesPage.CompletedText else ServicesPage.ClosingStage)
    else stage
  }

  /** `getStatusColor` of the dashboard: red first, then the closing stage by completion, then
      the stage colours with the `Kayıt` colour for every other stage. */
  function StatusColor(stage: Option<string>, completedAt: Option<string>, isCancelled: bool): (t: Tone)
    ensures t == ServicesPage.Red <==> isCancelled
    ensures t == ServicesPage.Teal <==> !isCancelled && stage == Some(ServicesPage.ClosingStage) && Truthy(completedAt)
    ensures t == ServicesPage.Green <==> !isCancelled && stage == Some(ServicesPage.ClosingStage) && !Truthy(completedAt)
    ensures t == ServicesPage.Yellow <==> !isCancelled && stage == Some(ServicesPage.DetectionStage)
  {
    if isCancelled then ServicesPage.Red
    else if stage == Some(ServicesPage.ClosingStage) then
      (if Truthy(completedAt) then ServicesPage.Teal else ServicesPage.Green)
    else if stage == Some(ServicesPage.RegisteredStage) then ServicesPage.Blue
    else if stage == Some(ServicesPage.DetectionStage) then ServicesPage.Yellow
    else ServicesPage.Blue
  }

  /** The label of a dashboard row: no label exactly for a live service without a stage, and
      otherwise the cancellation or completion text or the stage name. */
  function TextOf(s: Service): (text: Option<string>)
    ensures text.None? <==> !s.isCancelled && s.stageName.None?
    ensures text.Some? ==> text.value in {ServicesPage.CancelledText, ServicesPage.CompletedText}
                           || Some(text.value) == s.stageName
  {
    StatusText(s.stageName, s.completedAt, s.isCancelled)
  }

  /** The colour of a dashboard row: red exactly for cancelled services, and teal only for
      completed ones in the closing stage. */
  function ColorOf(s: Service): (t: Tone)
    ensures t == ServicesPage.Red <==> s.isCancelled
    ensures t == ServicesPage.Teal ==> s.stageName == Some(ServicesPage.ClosingStage) && Truthy(s.completedAt)
  {
    StatusColor(s.stageName, s.completedAt, s.isCancelled)
  }

  /** The two pages agree on cancelled services and on services in the closing stage. */
  lemma AgreesWithServicesPage(s: Service)
    requires s.isCancelled || s.stageName == Some(ServicesPage.ClosingStage)
    ensures TextOf(s) == Some(ServicesPage.StatusText(s))
    ensures ColorOf(s) == ServicesPage.StatusColor(s)
  {
  }

  /** A service not in the closing stage shows its stage name on the dashboard whether or not
      it is completed; the services page shows such a completed service as completed. */
  lemma CompletionOutsideClosingIgnored(s: Service)
    requires !s.isCancelled && s.stageName != Some(ServicesPage.ClosingStage)
    ensures TextOf(s) == s.stageName
    ensures ColorOf(s) !in {ServicesPage.Red, ServicesPage.Teal, ServicesPage.Green}
    ensures Truthy(s.completedAt) ==> ServicesPage.StatusText(s) == ServicesPage.CompletedText
  {
  }

  /** A completed service still in the detection stage, and one without a stage: the two
      pages label and colour them differently. */
  lemma PagesDisagree()
    ensures var s := ServicesPage.Service("1", None, None, None, Some(ServicesPage.DetectionStage), Some("2024-01-01"), false);
            TextOf(s) == Some(ServicesPage.DetectionStage) && ServicesPage.StatusText(s) == ServicesPage.CompletedText
            && ColorOf(s) == ServicesPage.Yellow && ServicesPage.StatusColor(s) == ServicesPage.Teal
    ensures var s := ServicesPage.Service("2", None, None, None, None, None, false);
            TextOf(s) == None && ServicesPage.StatusText(s) == ServicesPage.RegisteredStage
  {
  }
}
