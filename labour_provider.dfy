/**
 * The service manager (`LabourProviderScreen`): attach an existing service
 * to the labour account, create a new service with its types, and list the
 * mapped services with a search.
 */
module LabourProvider {
  import opened Wrappers
  import opened Text
  import opened Api
  import opened ServiceForms

  /** Kotlin's `coerceIn(lo, hi)`, which demands `lo <= hi`. */
  function CoerceIn(v: int, lo: int, hi: int): (r: int)
    requires lo <= hi
    ensures lo <= r <= hi
    ensures lo <= v <= hi ==> r == v
    ensures v < lo ==> r == lo
    ensures v > hi ==> r == hi
  {
    if v < lo then lo else if v > hi then hi else v
  }

  /**
   * The "Attach Service" checks, in order: a session token, then a selected
   * service. The request carries the typed years when they parse as an Int,
   * and the notes untrimmed, with blank notes sent as `null`.
   */
  function AttachCheck(token: Option<string>, selected: Option<ServiceItem>, experienceYears: string,
                       notes: string): (r: Result<LabourServiceMapRequest, FormError>)
    ensures r == Failure(SessionExpired) <==> IsNullOrBlank(token)
    ensures r == Failure(NoServiceSelected) <==> !IsNullOrBlank(token) && selected.None?
    ensures r.Success? ==> r.value.token == token.value && r.value.serviceId == selected.value.serviceId
    ensures r.Success? ==> r.value.experienceYears == ToIntOrNull(experienceYears)
    ensures r.Success? && AllDigits(experienceYears) && r.value.experienceYears.Some? ==> r.value.experienceYears.value >= 0
    ensures r.Success? ==> r.value.notes == IfBlankNull(notes)
  {
    if IsNullOrBlank(token) then Failure(SessionExpired)
    else if selected.None? then Failure(NoServiceSelected)
    else Success(LabourServiceMapRequest(token.value, selected.value.serviceId, ToIntOrNull(experienceYears), IfBlankNull(notes)))
  }

  /** The line under the tab row without an email (`LoggedInLine` with it). */
  const NoEmailLine := "Labour user"

  /** The plain text fields of the screen, each set to whatever is typed. */
  datatype TextField = Notes | ServiceName | ServiceDescription | ServicePrice | ServiceDuration | TypeName | TypeDescription | TypePrice | TypePhotos | SearchText

  /** The screen's remembered state (`LabourProviderScreen.kt` lines 71-92). */
  class LabourProviderScreen {
    const userEmail: Option<string>
    const token: Option<string>

    var selectedTab: int
    var services: seq<ServiceItem>
    var selectedService: Option<ServiceItem>
    var experienceYearsText: string
    var notes: string
    var newServiceName: string
    var newServiceDescription: string
    var newServicePrice: string
    var newServiceDuration: string
    var newTypeName: string
    var newTypeDescription: string
    var newTypePrice: string
    var newTypePhotos: string
    var serviceTypes: seq<ServiceTypeItem>
    var searchText: string
    var mappedServices: seq<MappedServiceItem>
    var isServicesLoading: bool
    var isMapLoading: bool
    var isCreateServiceLoading: bool
    var isMappedLoading: bool

    /**
     * One of the two tabs is shown, the years field holds digits only, every
     * pending type is one the add-type form can build, and no request is in
     * flight between handlers.
     */
    ghost predicate Valid()
      reads this
    {
      && 0 <= selectedTab <= 1
      && AllDigits(experienceYearsText)
      && AllWellFormed(serviceTypes)
      && !isServicesLoading && !isMapLoading && !isCreateServiceLoading && !isMappedLoading
    }

    /** A fresh screen opens on `initialTab` clamped to the two tabs, with everything else empty. */
    constructor (userEmail: Option<string>, token: Option<string>, initialTab: int)
      ensures Valid()
      ensures this.userEmail == userEmail && this.token == token
      ensures selectedTab == CoerceIn(initialTab, 0, 1)
      ensures services == [] && selectedService.None? && serviceTypes == [] && mappedServices == []
      ensures (experienceYearsText, notes, searchText) == ("", "", "")
      ensures (newServiceName, newServiceDescription, newServicePrice, newServiceDuration) == ("", "", "", "")
      ensures (newTypeName, newTypeDescription, newTypePrice, newTypePhotos) == ("", "", "", "")
    {
      this.userEmail := userEmail;
      this.token := token;
      selectedTab := CoerceIn(initialTab, 0, 1);
      services := [];
      selectedService := None;
      experienceYearsText := "";
      notes := "";
      newServiceName := "";
      newServiceDescription := "";
      newServicePrice := "";
      newServiceDuration := "";
      newTypeName := "";
      newTypeDescription := "";
      newTypePrice := "";
      newTypePhotos := "";
      serviceTypes := [];
      searchText := "";
      mappedServices := [];
      isServicesLoading := false;
      isMapLoading := false;
      isCreateServiceLoading := false;
      isMappedLoading := false;
    }

    /**
     * `loadAllServices()`: a delivered list replaces the services and, when
     * nothing is selected yet, selects the first one; a failed or thrown call
     * changes nothing.
     */
    method LoadAllServices(reply: Call<seq<ServiceItem>>)
      requires Valid()
      modifies this`services, this`selectedService, this`isServicesLoading
      ensures Valid()
      ensures reply.Delivered() ==> services == reply.body.value
      ensures reply.Delivered() ==> (selectedService.Some? <==> old(selectedService).Some? || services != [])
      ensures reply.Delivered() && old(selectedService).None? && services != [] ==> selectedService == Some(services[0])
      ensures old(selectedService).Some? ==> selectedService == old(selectedService)
      ensures !reply.Delivered() ==> services == old(services) && selectedService == old(selectedService)
    {
      isServicesLoading := true;
      if reply.Delivered() {
        services := reply.body.value;
        if selectedService.None? {
          selectedService := FirstOrNull(reply.body.value);
        }
      }
      isServicesLoading := false;
    }

    /**
     * `loadMappedServices(search)`: nothing is sent without a token;
     * otherwise the list is refreshed from the reply.
     */
    method LoadMappedServices(search: string, reply: Call<LabourMappedServicesResponse>)
      returns (sent: Option<MappedServicesQuery>)
      requires Valid()
      modifies this`mappedServices, this`isMappedLoading
      ensures Valid()
      ensures sent == MappedServicesQueryFor(token, search)
      ensures sent.Some? ==> mappedServices == RefreshedList(old(mappedServices), reply)
      ensures sent.None? ==> mappedServices == old(mappedServices)
    {
      sent := MappedServicesQueryFor(token, search);
      if sent.Some? {
        isMappedLoading := true;
        mappedServices := RefreshedList(mappedServices, reply);
        isMappedLoading := false;
      }
    }

    /** The first composition: load all services, then the mapped services for the current search. */
    method Start(servicesReply: Call<seq<ServiceItem>>, mappedReply: Call<LabourMappedServicesResponse>)
      returns (sent: Option<MappedServicesQuery>)
      requires Valid()
      modifies this`services, this`selectedService, this`isServicesLoading, this`mappedServices, this`isMappedLoading
      ensures Valid()
      ensures servicesReply.Delivered() ==> services == servicesReply.body.value
      ensures !servicesReply.Delivered() ==> services == old(services) && selectedService == old(selectedService)
      ensures servicesReply.Delivered() && old(selectedService).None? ==> selectedService == FirstOrNull(services)
      ensures sent == MappedServicesQueryFor(token, searchText)
      ensures sent.Some? ==> mappedServices == RefreshedList(old(mappedServices), mappedReply)
      ensures sent.None? ==> mappedServices == old(mappedServices)
    {
      LoadAllServices(servicesReply);
      sent := LoadMappedServices(searchText, mappedReply);
    }

    /** The "Attach Service" tab. */
    method SelectAttachTab()
      requires Valid()
      modifies this`selectedTab
      ensures Valid() && selectedTab == 0
    {
      selectedTab := 0;
    }

    /** The "My Services" tab, which also reloads the mapped services for the current search. */
    method SelectMyServicesTab(reply: Call<LabourMappedServicesResponse>) returns (sent: Option<MappedServicesQuery>)
      requires Valid()
      modifies this`selectedTab, this`mappedServices, this`isMappedLoading
      ensures Valid() && selectedTab == 1
      ensures sent == MappedServicesQueryFor(token, searchText)
      ensures sent.Some? ==> mappedServices == RefreshedList(old(mappedServices), reply)
      ensures sent.None? ==> mappedServices == old(mappedServices)
    {
      selectedTab := 1;
      sent := LoadMappedServices(searchText, reply);
    }

    /** The "Search" button of the mapped-services tab. */
    method Search(reply: Call<LabourMappedServicesResponse>) returns (sent: Option<MappedServicesQuery>)
      requires Valid() && selectedTab == 1
      modifies this`mappedServices, this`isMappedLoading
      ensures Valid()
      ensures sent == MappedServicesQueryFor(token, searchText)
      ensures sent.Some? ==> mappedServices == RefreshedList(old(mappedServices), reply)
      ensures sent.None? ==> mappedServices == old(mappedServices)
    {
      sent := LoadMappedServices(searchText, reply);
    }

    /** Picking an entry of the service dropdown, which lists `services`. */
    method SelectService(service: ServiceItem)
      requires Valid() && selectedTab == 0 && service in services
      modifies this`selectedService
      ensures Valid() && selectedService == Some(service)
    {
      selectedService := Some(service);
    }

    /** Typing into a plain text field replaces its text and nothing else. */
    method Edit(field: TextField, value: string)
      requires Valid() && selectedTab == if field == SearchText then 1 else 0
      modifies this`notes, this`newServiceName, this`newServiceDescription, this`newServicePrice,
               this`newServiceDuration, this`newTypeName, this`newTypeDescription, this`newTypePrice,
               this`newTypePhotos, this`searchText
      ensures Valid()
      ensures notes == if field == Notes then value else old(notes)
      ensures newServiceName == if field == ServiceName then value else old(newServiceName)
      ensures newServiceDescription == if field == ServiceDescription then value else old(newServiceDescription)
      ensures newServicePrice == if field == ServicePrice then value else old(newServicePrice)
      ensures newServiceDuration == if field == ServiceDuration then value else old(newServiceDuration)
      ensures newTypeName == if field == TypeName then value else old(newTypeName)
      ensures newTypeDescription == if field == TypeDescription then value else old(newTypeDescription)
      ensures newTypePrice == if field == TypePrice then value else old(newTypePrice)
      ensures newTypePhotos == if field == TypePhotos then value else old(newTypePhotos)
      ensures searchText == if field == SearchText then value else old(searchText)
    {
      match field
      case Notes => notes := value;
      case ServiceName => newServiceName := value;
      case ServiceDescription => newServiceDescription := value;
      case ServicePrice => newServicePrice := value;
      case ServiceDuration => newServiceDuration := value;
      case TypeName => newTypeName := value;
      case TypeDescription => newTypeDescription := value;
      case TypePrice => newTypePrice := value;
      case TypePhotos => newTypePhotos := value;
      case SearchText => searchText := value;
    }

    /** The years field keeps only the digits of what is typed. */
    method EditExperienceYears(value: string)
      requires Valid() && selectedTab == 0
      modifies this`experienceYearsText
      ensures Valid()
      ensures experienceYearsText == FilterDigits(value)
    {
      experienceYearsText := FilterDigits(value);
    }

    /**
     * "Attach Service": after the checks, a confirmed mapping clears the
     * years and notes and reloads the mapped services; any other reply
     * leaves the form as it was.
     */
    method AttachService(mapReply: Call<LabourServiceMappingResponse>, reloadReply: Call<LabourMappedServicesResponse>)
      returns (sent: Result<LabourServiceMapRequest, FormError>, reload: Option<MappedServicesQuery>)
      requires Valid() && selectedTab == 0
      modifies this`notes, this`experienceYearsText, this`isMapLoading, this`mappedServices, this`isMappedLoading
      ensures Valid()
      ensures sent == AttachCheck(token, selectedService, old(experienceYearsText), old(notes))
      ensures sent.Success? && sent.value.experienceYears.Some? ==> sent.value.experienceYears.value >= 0
      ensures sent.Success? && Confirmed(mapReply) ==>
        notes == "" && experienceYearsText == ""
        && reload == MappedServicesQueryFor(token, searchText) && reload.Some?
        && mappedServices == RefreshedList(old(mappedServices), reloadReply)
      ensures !(sent.Success? && Confirmed(mapReply)) ==>
        notes == old(notes) && experienceYearsText == old(experienceYearsText)
        && reload.None? && mappedServices == old(mappedServices)
    {
      sent := AttachCheck(token, selectedService, experienceYearsText, notes);
      reload := None;
      if sent.Success? {
        isMapLoading := true;
        var confirmed := Confirmed(mapReply);
        if confirmed {
          notes := "";
          experienceYearsText := "";
        }
        isMapLoading := false;
        // the reload is launched in its own coroutine, so it runs after the `finally`
        if confirmed {
          reload := LoadMappedServices(searchText, reloadReply);
        }
      }
    }

    /**
     * "Add Type": a type the shared check accepts joins the pending types
     * and the four type fields are cleared; a rejected one changes nothing.
     * This screen sends no subscription plan.
     */
    method AddType(toDoubleOrNull: string -> Option<Double>) returns (added: Result<ServiceTypeItem, FormError>)
      requires Valid() && selectedTab == 0
      modifies this`serviceTypes, this`newTypeName, this`newTypeDescription, this`newTypePrice, this`newTypePhotos
      ensures Valid()
      ensures added == NewServiceType(old(newTypeName), old(newTypeDescription), None, toDoubleOrNull(old(newTypePrice)),
                                      old(newTypePhotos))
      ensures added.Success? ==> serviceTypes == old(serviceTypes) + [added.value]
      ensures added.Success? ==> (newTypeName, newTypeDescription, newTypePrice, newTypePhotos) == ("", "", "", "")
      ensures added.Failure? ==>
        serviceTypes == old(serviceTypes)
        && (newTypeName, newTypeDescription, newTypePrice, newTypePhotos)
        == old((newTypeName, newTypeDescription, newTypePrice, newTypePhotos))
    {
      var name, description, photos := newTypeName, newTypeDescription, newTypePhotos;
      var price := toDoubleOrNull(newTypePrice);
      added := NewServiceType(name, description, None, price, photos);
      if added.Success? {
        serviceTypes := serviceTypes + [added.value];
        ClearTypeFields();
      }
    }

    /** The resets after an added type. */
    method ClearTypeFields()
      modifies this`newTypeName, this`newTypeDescription, this`newTypePrice, this`newTypePhotos
      ensures (newTypeName, newTypeDescription, newTypePrice, newTypePhotos) == ("", "", "", "")
    {
      newTypeName := "";
      newTypeDescription := "";
      newTypePrice := "";
      newTypePhotos := "";
    }

    /**
     * "Create Service": after the shared check, a delivered reply clears the
     * four service fields and the pending types, selects the created service
     * and reloads the services (which keeps that selection); any other reply
     * leaves the form as it was.
     */
    method CreateService(toDoubleOrNull: string -> Option<Double>, reply: Call<ServiceItem>, reloadReply: Call<seq<ServiceItem>>)
      returns (sent: Result<CreateServiceRequest, FormError>)
      requires Valid() && selectedTab == 0
      modifies this`newServiceName, this`newServiceDescription, this`newServicePrice, this`newServiceDuration,
               this`serviceTypes, this`services, this`selectedService, this`isServicesLoading,
               this`isCreateServiceLoading
      ensures Valid()
      ensures sent == NewService(old(newServiceName), old(newServiceDescription), toDoubleOrNull(old(newServicePrice)),
                                 old(newServiceDuration),
                                 old(serviceTypes), None, [])
      ensures sent.Success? && reply.Delivered() ==>
        (newServiceName, newServiceDescription, newServicePrice, newServiceDuration) == ("", "", "", "")
        && serviceTypes == [] && selectedService == Some(reply.body.value)
        && services == (if reloadReply.Delivered() then reloadReply.body.value else old(services))
      ensures !(sent.Success? && reply.Delivered()) ==>
        (newServiceName, newServiceDescription, newServicePrice, newServiceDuration)
        == old((newServiceName, newServiceDescription, newServicePrice, newServiceDuration))
        && serviceTypes == old(serviceTypes) && services == old(services) && selectedService == old(selectedService)
    {
      var name, description, duration, types := newServiceName, newServiceDescription, newServiceDuration, serviceTypes;
      var price := toDoubleOrNull(newServicePrice);
      sent := NewService(name, description, price, duration, types, None, []);
      if sent.Success? {
        if reply.Delivered() {
          ServiceCreated(reply.body.value, reloadReply);
        } else {
          // a failed or thrown call only toasts, and `finally` lowers the flag again
          isCreateServiceLoading := true;
          isCreateServiceLoading := false;
        }
      }
    }

    /**
     * The success branch of "Create Service": reset the form and select the
     * created service while the request is in flight, then reload the
     * services, which are fetched in their own coroutine after the `finally`
     * and so keep that selection.
     */
    method ServiceCreated(created: ServiceItem, reloadReply: Call<seq<ServiceItem>>)
      requires Valid()
      modifies this`newServiceName, this`newServiceDescription, this`newServicePrice, this`newServiceDuration,
               this`serviceTypes, this`services, this`selectedService, this`isServicesLoading,
               this`isCreateServiceLoading
      ensures Valid()
      ensures (newServiceName, newServiceDescription, newServicePrice, newServiceDuration) == ("", "", "", "")
      ensures serviceTypes == [] && selectedService == Some(created)
      ensures services == if reloadReply.Delivered() then reloadReply.body.value else old(services)
    {
      isCreateServiceLoading := true;
      ClearServiceFields(created);
      isCreateServiceLoading := false;
      LoadAllServices(reloadReply);
    }

    /** The resets after a created service, which becomes the selected one. */
    method ClearServiceFields(created: ServiceItem)
      modifies this`newServiceName, this`newServiceDescription, this`newServicePrice, this`newServiceDuration,
               this`serviceTypes, this`selectedService
      ensures (newServiceName, newServiceDescription, newServicePrice, newServiceDuration) == ("", "", "", "")
      ensures serviceTypes == [] && selectedService == Some(created)
    {
      selectedService := Some(created);
      newServiceName := "";
      newServiceDescription := "";
      newServicePrice := "";
      newServiceDuration := "";
      serviceTypes := [];
    }
  }
}
