/**
 * The customer's home screen (`HomeScreen`): a welcome card, a search over
 * the labour services on offer, and a "Request Service" action per result.
 */
module Home {
  import opened Wrappers
  import opened Text
  import opened Api

  /** The text around the name in the welcome title, which ends with the waving-hand emoji. */
  const TitlePrefix := "Welcome, "
  const TitleSuffix := "! \U{1F44B}"

  /** The welcome title without a name. */
  const AnonymousTitle := "Welcome! \U{1F44B}"

  /**
   * The welcome title: with a non-blank name it is the name framed by the
   * greeting, so the name can be read back from it; otherwise the plain
   * greeting.
   */
  function WelcomeTitle(name: Option<string>): (title: string)
    ensures IsNullOrBlank(name) ==> title == AnonymousTitle
    ensures !IsNullOrBlank(name) ==>
      && |title| == |TitlePrefix| + |name.value| + |TitleSuffix|
      && title[..|TitlePrefix|] == TitlePrefix
      && title[|TitlePrefix|..|title| - |TitleSuffix|] == name.value
      && title[|title| - |TitleSuffix|..] == TitleSuffix
  {
    if !IsNullOrBlank(name) then TitlePrefix + name.value + TitleSuffix else AnonymousTitle
  }

  /** The line under the welcome title without an email (`LoggedInLine` with it). */
  const NoEmailLine := "Search labour services and raise a request."

  /**
   * The text of one result card and the service id its "Request Service"
   * button hands to the activity.
   */
  datatype ServiceCard = ServiceCard(
    title: string,
    description: Option<string>,
    labour: string,
    experienceYears: int,
    requestTarget: Option<int>)

  /**
   * A result's card: a missing name shown as "Service", the description
   * only when non-blank, the labour's name, else its email, else "-", a
   * missing experience as 0, and the request carrying the mapping's service id.
   */
  function CardOf(item: MappedServiceItem): (card: ServiceCard)
    ensures card.title == item.serviceName.GetOr("Service")
    ensures card.description.Some? <==> !IsNullOrBlank(item.description)
    ensures card.description.Some? ==> card.description == item.description
    ensures item.labourName.Some? ==> card.labour == item.labourName.value
    ensures item.labourName.None? && item.labourEmail.Some? ==> card.labour == item.labourEmail.value
    ensures item.labourName.None? && item.labourEmail.None? ==> card.labour == "-"
    ensures card.experienceYears == item.experienceYears.GetOr(0)
    ensures card.requestTarget == item.serviceId
  {
    ServiceCard(item.serviceName.GetOr("Service"),
                if IsNullOrBlank(item.description) then None else item.description,
                item.labourName.GetOr(item.labourEmail.GetOr("-")),
                item.experienceYears.GetOr(0),
                item.serviceId)
  }

  /** The screen's remembered state (`HomeScreen.kt` lines 64-66). */
  class HomeScreen {
    const name: Option<string>
    const userEmail: Option<string>
    const token: Option<string>

    var searchText: string
    var mappedServices: seq<MappedServiceItem>
    var isLoading: bool

    /** No search is in flight between handlers. */
    ghost predicate Valid()
      reads this
    {
      !isLoading
    }

    /** A fresh screen: no search text and no results. */
    constructor (name: Option<string>, userEmail: Option<string>, token: Option<string>)
      ensures Valid()
      ensures this.name == name && this.userEmail == userEmail && this.token == token
      ensures searchText == "" && mappedServices == []
    {
      this.name := name;
      this.userEmail := userEmail;
      this.token := token;
      searchText := "";
      mappedServices := [];
      isLoading := false;
    }

    /**
     * `loadAvailableServices(search)`: nothing is sent without a token;
     * otherwise the results are refreshed from the reply.
     */
    method LoadAvailableServices(search: string, reply: Call<LabourMappedServicesResponse>)
      returns (sent: Option<MappedServicesQuery>)
      requires Valid()
      modifies this`mappedServices, this`isLoading
      ensures Valid()
      ensures sent == MappedServicesQueryFor(token, search)
      ensures sent.Some? ==> mappedServices == RefreshedList(old(mappedServices), reply)
      ensures sent.None? ==> mappedServices == old(mappedServices)
    {
      sent := MappedServicesQueryFor(token, search);
      if sent.Some? {
        isLoading := true;
        mappedServices := RefreshedList(mappedServices, reply);
        isLoading := false;
      }
    }

    /** The effect keyed on the token: a search with the current text, only when there is a token. */
    method Start(reply: Call<LabourMappedServicesResponse>) returns (sent: Option<MappedServicesQuery>)
      requires Valid()
      modifies this`mappedServices, this`isLoading
      ensures Valid()
      ensures sent.Some? <==> !IsNullOrBlank(token)
      ensures sent == MappedServicesQueryFor(token, searchText)
      ensures sent.Some? ==> mappedServices == RefreshedList(old(mappedServices), reply)
      ensures sent.None? ==> mappedServices == old(mappedServices)
    {
      sent := None;
      if !IsNullOrBlank(token) {
        sent := LoadAvailableServices(searchText, reply);
      }
    }

    /** The search field, whose text the next search sends. */
    method EditSearch(value: string)
      requires Valid()
      modifies this`searchText
      ensures Valid() && searchText == value
    {
      searchText := value;
    }

    /** The "Search" button. */
    method Search(reply: Call<LabourMappedServicesResponse>) returns (sent: Option<MappedServicesQuery>)
      requires Valid()
      modifies this`mappedServices, this`isLoading
      ensures Valid()
      ensures sent == MappedServicesQueryFor(token, searchText)
      ensures sent.Some? ==> mappedServices == RefreshedList(old(mappedServices), reply)
      ensures sent.None? ==> mappedServices == old(mappedServices)
    {
      sent := LoadAvailableServices(searchText, reply);
    }
  }
}
