/**
 * The customer's labour screen (`LabourScreen`): submit a labour request for
 * one of the services, opened on the service picked elsewhere when there is
 * one, and list the requests already submitted.
 */
module LabourRequests {
  import opened Wrappers
  import opened Text
  import opened Api
  import opened ServiceForms

  /**
   * The position of the first service whose id is `id`; a `null` id matches
   * no service, since every service has an id.
   */
  function IndexOfId(services: seq<ServiceItem>, id: Option<int>): (r: Option<nat>)
    ensures r.Some? ==> r.value < |services| && Some(services[r.value].serviceId) == id
    ensures r.Some? ==> forall j | 0 <= j < r.value :: Some(services[j].serviceId) != id
    ensures r.None? ==> forall j | 0 <= j < |services| :: Some(services[j].serviceId) != id
    decreases |services|
  {
    if |services| == 0 then None
    else if Some(services[0].serviceId) == id then Some(0)
    else match IndexOfId(services[1..], id)
      case None => None
      case Some(k) => Some(k + 1)
  }

  /**
   * The selection after the services load: the first service with the
   * requested id, else the first service (`firstOrNull { … } ?: firstOrNull()`).
   */
  function InitialSelection(services: seq<ServiceItem>, initialServiceId: Option<int>): (r: Option<ServiceItem>)
    ensures r.Some? <==> |services| > 0
    ensures r.Some? ==> r.value in services
    ensures (exists s | s in services :: Some(s.serviceId) == initialServiceId) ==>
      r.Some? && Some(r.value.serviceId) == initialServiceId
    ensures (forall s | s in services :: Some(s.serviceId) != initialServiceId) ==> r == FirstOrNull(services)
  {
    match IndexOfId(services, initialServiceId)
    case Some(i) => Some(services[i])
    case None => FirstOrNull(services)
  }

  /** No two services share an id. */
  predicate DistinctIds(services: seq<ServiceItem>) {
    forall i, j | 0 <= i < j < |services| :: services[i].serviceId != services[j].serviceId
  }

  /**
   * When the ids are distinct, opening the screen on a listed service's id
   * selects exactly that service.
   */
  lemma SelectsRequestedService(services: seq<ServiceItem>, s: ServiceItem)
    requires DistinctIds(services) && s in services
    ensures InitialSelection(services, Some(s.serviceId)) == Some(s)
  {
    var k :| 0 <= k < |services| && services[k] == s;
    var r := IndexOfId(services, Some(s.serviceId));
    assert r.Some? by {
      assert Some(services[k].serviceId) == Some(s.serviceId);
    }
    assert services[r.value].serviceId == services[k].serviceId;
  }

  /**
   * The "Submit Labour Request" checks, in order: a session token, then a
   * selected service and a non-blank address. The request carries the
   * trimmed address and the trimmed date and notes, blank ones as `null`.
   */
  function SubmitCheck(token: Option<string>, selected: Option<ServiceItem>, address: string, preferredDate: string,
                       notes: string): (r: Result<LabourRequestSubmitRequest, FormError>)
    ensures r == Failure(SessionExpired) <==> IsNullOrBlank(token)
    ensures r == Failure(MissingRequestDetails) <==> !IsNullOrBlank(token) && (selected.None? || IsBlank(address))
    ensures r.Failure? ==> r.error == SessionExpired || r.error == MissingRequestDetails
    ensures r.Success? ==> r.value.token == token.value && r.value.serviceId == selected.value.serviceId
    ensures r.Success? ==> r.value.address == Trim(address) && r.value.address != []
    ensures r.Success? ==> r.value.preferredDate == TrimOrNull(preferredDate) && r.value.notes == TrimOrNull(notes)
  {
    if IsNullOrBlank(token) then Failure(SessionExpired)
    else if selected.None? || IsBlank(address) then Failure(MissingRequestDetails)
    else Success(LabourRequestSubmitRequest(token.value, selected.value.serviceId, Trim(address),
                                            TrimOrNull(preferredDate), TrimOrNull(notes)))
  }

  /** The line above the form without an email (`LoggedInLine` with it). */
  const NoEmailLine := "Logged in user"

  /** The text of one card in "My Labour Requests"; the optional lines are shown only when present. */
  datatype RequestCard = RequestCard(
    title: string,
    status: string,
    address: string,
    preferredDate: Option<string>,
    createdAt: Option<string>)

  /**
   * A request's card: missing name, status and address shown as "Service",
   * "NEW" and "-", and the date lines only for non-blank values.
   */
  function CardOf(item: UserLabourRequestItem): (card: RequestCard)
    ensures card.title == item.serviceName.GetOr("Service")
    ensures card.status == item.status.GetOr("NEW")
    ensures card.address == item.address.GetOr("-")
    ensures card.preferredDate.Some? <==> !IsNullOrBlank(item.preferredDate)
    ensures card.preferredDate.Some? ==> card.preferredDate == item.preferredDate
    ensures card.createdAt.Some? <==> !IsNullOrBlank(item.createdAt)
    ensures card.createdAt.Some? ==> card.createdAt == item.createdAt
  {
    RequestCard(item.serviceName.GetOr("Service"), item.status.GetOr("NEW"), item.address.GetOr("-"),
                if IsNullOrBlank(item.preferredDate) then None else item.preferredDate,
                if IsNullOrBlank(item.createdAt) then None else item.createdAt)
  }

  /** The plain text fields of the screen, each set to whatever is typed. */
  datatype TextField = Address | PreferredDate | Notes

  /** The screen's remembered state (`LabourScreen.kt` lines 71-82). */
  class LabourScreen {
    const userEmail: Option<string>
    const token: Option<string>
    const initialServiceId: Option<int>

    var selectedTab: int
    var services: seq<ServiceItem>
    var selectedService: Option<ServiceItem>
    var address: string
    var preferredDate: string
    var notes: string
    var isServiceLoading: bool
    var isSubmitLoading: bool
    var isRequestsLoading: bool
    var myRequests: seq<UserLabourRequestItem>

    /**
     * One of the two tabs is shown, a selected service is one of the listed
     * services, and no request is in flight between handlers.
     */
    ghost predicate Valid()
      reads this
    {
      && 0 <= selectedTab <= 1
      && (selectedService.Some? ==> selectedService.value in services)
      && !isServiceLoading && !isSubmitLoading && !isRequestsLoading
    }

    /** A fresh screen: the submit tab, nothing loaded, nothing typed. */
    constructor (userEmail: Option<string>, token: Option<string>, initialServiceId: Option<int>)
      ensures Valid()
      ensures this.userEmail == userEmail && this.token == token && this.initialServiceId == initialServiceId
      ensures selectedTab == 0 && services == [] && selectedService.None? && myRequests == []
      ensures (address, preferredDate, notes) == ("", "", "")
    {
      this.userEmail := userEmail;
      this.token := token;
      this.initialServiceId := initialServiceId;
      selectedTab := 0;
      services := [];
      selectedService := None;
      address := "";
      preferredDate := "";
      notes := "";
      isServiceLoading := false;
      isSubmitLoading := false;
      isRequestsLoading := false;
      myRequests := [];
    }

    /**
     * `loadServices()`, run when the screen opens: a delivered list replaces
     * the services and the selection starts on the requested service; any
     * other reply changes nothing.
     */
    method LoadServices(reply: Call<seq<ServiceItem>>)
      requires Valid()
      modifies this`services, this`selectedService, this`isServiceLoading
      ensures Valid()
      ensures reply.Delivered() ==>
        services == reply.body.value && selectedService == InitialSelection(services, initialServiceId)
      ensures !reply.Delivered() ==> services == old(services) && selectedService == old(selectedService)
    {
      isServiceLoading := true;
      if reply.Delivered() {
        var body := reply.body.value;
        services := body;
        selectedService := InitialSelection(body, initialServiceId);
      }
      isServiceLoading := false;
    }

    /**
     * `loadMyRequests()`: nothing is sent without a token; otherwise the list
     * is refreshed from the reply.
     */
    method LoadMyRequests(reply: Call<UserLabourRequestsResponse>) returns (sent: bool)
      requires Valid()
      modifies this`myRequests, this`isRequestsLoading
      ensures Valid()
      ensures sent <==> !IsNullOrBlank(token)
      ensures sent ==> myRequests == RefreshedList(old(myRequests), reply)
      ensures !sent ==> myRequests == old(myRequests)
    {
      sent := !IsNullOrBlank(token);
      if sent {
        isRequestsLoading := true;
        myRequests := RefreshedList(myRequests, reply);
        isRequestsLoading := false;
      }
    }

    /** The "Submit Request" tab. */
    method SelectSubmitTab()
      requires Valid()
      modifies this`selectedTab
      ensures Valid() && selectedTab == 0
    {
      selectedTab := 0;
    }

    /** The "My Requests" tab, which reloads the requests. */
    method SelectRequestsTab(reply: Call<UserLabourRequestsResponse>) returns (sent: bool)
      requires Valid()
      modifies this`selectedTab, this`myRequests, this`isRequestsLoading
      ensures Valid() && selectedTab == 1
      ensures sent <==> !IsNullOrBlank(token)
      ensures sent ==> myRequests == RefreshedList(old(myRequests), reply)
      ensures !sent ==> myRequests == old(myRequests)
    {
      selectedTab := 1;
      sent := LoadMyRequests(reply);
    }

    /** Typing into a plain text field replaces its text and nothing else. */
    method Edit(field: TextField, value: string)
      requires Valid() && selectedTab == 0
      modifies this`address, this`preferredDate, this`notes
      ensures Valid()
      ensures address == if field == Address then value else old(address)
      ensures preferredDate == if field == PreferredDate then value else old(preferredDate)
      ensures notes == if field == Notes then value else old(notes)
    {
      match field
      case Address => address := value;
      case PreferredDate => preferredDate := value;
      case Notes => notes := value;
    }

    /** A pick from the service dropdown, which lists the loaded services. */
    method SelectService(service: ServiceItem)
      requires Valid() && selectedTab == 0 && service in services
      modifies this`selectedService
      ensures Valid() && selectedService == Some(service)
    {
      selectedService := Some(service);
    }

    /**
     * "Submit Labour Request": after the checks, a confirmed reply clears the
     * address, date and notes and keeps the selected service; any other
     * reply leaves the form as it was.
     */
    method Submit(reply: Call<LabourRequestResponse>) returns (sent: Result<LabourRequestSubmitRequest, FormError>)
      requires Valid() && selectedTab == 0
      modifies this`address, this`preferredDate, this`notes, this`isSubmitLoading
      ensures Valid()
      ensures sent == SubmitCheck(token, selectedService, old(address), old(preferredDate), old(notes))
      ensures sent.Success? && Confirmed(reply) ==> (address, preferredDate, notes) == ("", "", "")
      ensures !(sent.Success? && Confirmed(reply)) ==>
        (address, preferredDate, notes) == old((address, preferredDate, notes))
    {
      var a, d, n := address, preferredDate, notes;
      sent := SubmitCheck(token, selectedService, a, d, n);
      if sent.Success? {
        isSubmitLoading := true;
        if Confirmed(reply) {
          address := "";
          preferredDate := "";
          notes := "";
        }
        isSubmitLoading := false;
      }
    }
  }
}
