/**
 * The labour home screen (`LabourHomeScreen`): a create-service form with
 * typed plans, an image URL and a gallery, and two cards that open the
 * service manager.
 */
module LabourHome {
  import opened Wrappers
  import opened Text
  import opened Api
  import opened ServiceForms

  /** The plan field's starting and reset value. */
  const DefaultPlan := "WEEKLY"

  /** The default plan is already upper-case. */
  lemma DefaultPlanIsUppercase()
    ensures IsUppercase(DefaultPlan)
  {
    assert DefaultPlan == ['W', 'E', 'E', 'K', 'L', 'Y'];
  }

  /**
   * The "Create Service" checks, in order: a session token, then the shared
   * service check. This screen also sends the trimmed main image URL (blank
   * as `null`) and the comma-separated gallery URLs.
   */
  function CreateServiceCheck(token: Option<string>, name: string, description: string, price: Option<Double>,
                              duration: string, types: seq<ServiceTypeItem>, mainImageUrl: string,
                              gallery: string): (r: Result<CreateServiceRequest, FormError>)
    ensures r == Failure(SessionExpired) <==> IsNullOrBlank(token)
    ensures r == Failure(MissingServiceDetails) <==>
      !IsNullOrBlank(token) && (IsBlank(name) || (!IsPositivePrice(price) && |types| == 0))
    ensures r.Success? ==> r == NewService(name, description, price, duration, types, TrimOrNull(mainImageUrl), ParseUrlList(gallery))
    ensures r.Success? ==> r.value.mainImageUrl == TrimOrNull(mainImageUrl) && r.value.galleryPhotoUrls == ParseUrlList(gallery)
  {
    if IsNullOrBlank(token) then Failure(SessionExpired)
    else NewService(name, description, price, duration, types, TrimOrNull(mainImageUrl), ParseUrlList(gallery))
  }

  /** The two cards under the form. */
  datatype ActionCard = AddOrMapService | MyMappedServices

  /** The tab of the service manager each card opens: "Open Service Manager" the first, "View My Services" the second. */
  function ManagerTab(card: ActionCard): (tab: int)
    ensures 0 <= tab <= 1
    ensures tab == 0 <==> card == AddOrMapService
  {
    match card
    case AddOrMapService => 0
    case MyMappedServices => 1
  }

  /** The line under the welcome title without an email (`LoggedInLine` with it). */
  const NoEmailLine := "Manage your services and mappings"

  /** The plain text fields of the service form, each set to whatever is typed. */
  datatype ServiceField = ServiceName | ServiceDescription | ServiceDuration | ServicePrice | MainImageUrl | GalleryPhotos

  /** The plain text fields of the type form (the plan field uppercases). */
  datatype TypeField = TypeName | TypeDescription | TypePrice | TypePhotos

  /** The screen's remembered state (`LabourHomeScreen.kt` lines 60-72). */
  class LabourHomeScreen {
    const userEmail: Option<string>
    const token: Option<string>

    var serviceName: string
    var serviceDescription: string
    var serviceDuration: string
    var servicePrice: string
    var serviceMainImageUrl: string
    var serviceGalleryPhotos: string
    var typeName: string
    var typeDescription: string
    var subscriptionPlan: string
    var typePrice: string
    var typePhotos: string
    var serviceTypes: seq<ServiceTypeItem>
    var isCreating: bool

    /**
     * The plan field is always upper-case, every pending type is one the
     * add-type form can build, and no creation is in flight between handlers.
     */
    ghost predicate Valid()
      reads this
    {
      IsUppercase(subscriptionPlan) && AllWellFormed(serviceTypes) && !isCreating
    }

    constructor (userEmail: Option<string>, token: Option<string>)
      ensures Valid()
      ensures this.userEmail == userEmail && this.token == token
      ensures subscriptionPlan == DefaultPlan && serviceTypes == [] && !isCreating
      ensures (serviceName, serviceDescription, serviceDuration, servicePrice) == ("", "", "", "")
      ensures (serviceMainImageUrl, serviceGalleryPhotos) == ("", "")
      ensures (typeName, typeDescription, typePrice, typePhotos) == ("", "", "", "")
    {
      this.userEmail := userEmail;
      this.token := token;
      serviceName := "";
      serviceDescription := "";
      serviceDuration := "";
      servicePrice := "";
      serviceMainImageUrl := "";
      serviceGalleryPhotos := "";
      typeName := "";
      typeDescription := "";
      subscriptionPlan := DefaultPlan;
      typePrice := "";
      typePhotos := "";
      serviceTypes := [];
      isCreating := false;
      DefaultPlanIsUppercase();
    }

    /** Typing into a field of the service form replaces its text and nothing else. */
    method EditService(field: ServiceField, value: string)
      requires Valid()
      modifies this`serviceName, this`serviceDescription, this`serviceDuration, this`servicePrice,
               this`serviceMainImageUrl, this`serviceGalleryPhotos
      ensures Valid()
      ensures serviceName == if field == ServiceName then value else old(serviceName)
      ensures serviceDescription == if field == ServiceDescription then value else old(serviceDescription)
      ensures serviceDuration == if field == ServiceDuration then value else old(serviceDuration)
      ensures servicePrice == if field == ServicePrice then value else old(servicePrice)
      ensures serviceMainImageUrl == if field == MainImageUrl then value else old(serviceMainImageUrl)
      ensures serviceGalleryPhotos == if field == GalleryPhotos then value else old(serviceGalleryPhotos)
    {
      match field
      case ServiceName => serviceName := value;
      case ServiceDescription => serviceDescription := value;
      case ServiceDuration => serviceDuration := value;
      case ServicePrice => servicePrice := value;
      case MainImageUrl => serviceMainImageUrl := value;
      case GalleryPhotos => serviceGalleryPhotos := value;
    }

    /** Typing into a field of the type form replaces its text and nothing else. */
    method EditType(field: TypeField, value: string)
      requires Valid()
      modifies this`typeName, this`typeDescription, this`typePrice, this`typePhotos
      ensures Valid()
      ensures typeName == if field == TypeName then value else old(typeName)
      ensures typeDescription == if field == TypeDescription then value else old(typeDescription)
      ensures typePrice == if field == TypePrice then value else old(typePrice)
      ensures typePhotos == if field == TypePhotos then value else old(typePhotos)
    {
      match field
      case TypeName => typeName := value;
      case TypeDescription => typeDescription := value;
      case TypePrice => typePrice := value;
      case TypePhotos => typePhotos := value;
    }

    /** The plan field uppercases every edit. */
    method EditSubscriptionPlan(value: string)
      requires Valid()
      modifies this`subscriptionPlan
      ensures Valid()
      ensures subscriptionPlan == Uppercase(value)
    {
      subscriptionPlan := Uppercase(value);
      UppercaseIsUppercase(value);
    }

    /**
     * "Add Type To Service": a type the shared check accepts joins the
     * pending types with the trimmed plan (blank as `null`), and the type
     * fields are reset, the plan to "WEEKLY"; a rejected type changes nothing.
     */
    method AddType(toDoubleOrNull: string -> Option<Double>) returns (added: Result<ServiceTypeItem, FormError>)
      requires Valid()
      modifies this`serviceTypes, this`typeName, this`typeDescription, this`subscriptionPlan,
               this`typePrice, this`typePhotos
      ensures Valid()
      ensures added == NewServiceType(old(typeName), old(typeDescription), TrimOrNull(old(subscriptionPlan)),
                                      toDoubleOrNull(old(typePrice)), old(typePhotos))
      ensures added.Success? && added.value.subscriptionPlan.Some? ==> IsUppercase(added.value.subscriptionPlan.value)
      ensures added.Success? ==> serviceTypes == old(serviceTypes) + [added.value]
      ensures added.Success? ==>
        (typeName, typeDescription, typePrice, typePhotos) == ("", "", "", "") && subscriptionPlan == DefaultPlan
      ensures added.Failure? ==>
        serviceTypes == old(serviceTypes)
        && (typeName, typeDescription, subscriptionPlan, typePrice, typePhotos)
        == old((typeName, typeDescription, subscriptionPlan, typePrice, typePhotos))
    {
      var name, description, plan, photos := typeName, typeDescription, subscriptionPlan, typePhotos;
      TrimKeepsUppercase(plan);
      var price := toDoubleOrNull(typePrice);
      added := NewServiceType(name, description, TrimOrNull(plan), price, photos);
      if added.Success? {
        serviceTypes := serviceTypes + [added.value];
        ClearTypeFields();
      }
    }

    /** The resets after an added type. */
    method ClearTypeFields()
      modifies this`typeName, this`typeDescription, this`subscriptionPlan, this`typePrice, this`typePhotos
      ensures (typeName, typeDescription, typePrice, typePhotos) == ("", "", "", "")
      ensures subscriptionPlan == DefaultPlan && IsUppercase(subscriptionPlan)
    {
      typeName := "";
      typeDescription := "";
      subscriptionPlan := DefaultPlan;
      typePrice := "";
      typePhotos := "";
      DefaultPlanIsUppercase();
    }

    /**
     * "Create Service": after the checks, a delivered reply clears the name,
     * description, duration, price and pending types and opens the service
     * manager on its first tab; the image URL and gallery fields are kept.
     * Any other reply leaves the form as it was. The request is never left
     * in flight.
     */
    method CreateService(toDoubleOrNull: string -> Option<Double>, reply: Call<ServiceItem>)
      returns (sent: Result<CreateServiceRequest, FormError>, openTab: Option<int>)
      requires Valid()
      modifies this`serviceName, this`serviceDescription, this`serviceDuration, this`servicePrice,
               this`serviceTypes, this`isCreating
      ensures Valid() && !isCreating
      ensures sent == CreateServiceCheck(token, old(serviceName), old(serviceDescription), toDoubleOrNull(old(servicePrice)),
                                         old(serviceDuration), old(serviceTypes), serviceMainImageUrl, serviceGalleryPhotos)
      ensures openTab.Some? <==> sent.Success? && reply.Delivered()
      ensures openTab.Some? ==> openTab.value == 0
      ensures openTab.Some? ==>
        (serviceName, serviceDescription, serviceDuration, servicePrice) == ("", "", "", "") && serviceTypes == []
      ensures openTab.None? ==>
        (serviceName, serviceDescription, serviceDuration, servicePrice)
        == old((serviceName, serviceDescription, serviceDuration, servicePrice))
        && serviceTypes == old(serviceTypes)
    {
      var name, description, duration, types := serviceName, serviceDescription, serviceDuration, serviceTypes;
      var image, gallery := serviceMainImageUrl, serviceGalleryPhotos;
      var price := toDoubleOrNull(servicePrice);
      sent := CreateServiceCheck(token, name, description, price, duration, types, image, gallery);
      openTab := None;
      if sent.Success? {
        isCreating := true;
        if reply.Delivered() {
          ClearServiceFields();
          openTab := Some(ManagerTab(AddOrMapService));
        }
        isCreating := false;
      }
    }

    /** The resets after a created service; the image URL and the gallery stay. */
    method ClearServiceFields()
      modifies this`serviceName, this`serviceDescription, this`serviceDuration, this`servicePrice, this`serviceTypes
      ensures (serviceName, serviceDescription, serviceDuration, servicePrice) == ("", "", "", "")
      ensures serviceTypes == []
    {
      serviceName := "";
      serviceDescription := "";
      serviceDuration := "";
      servicePrice := "";
      serviceTypes := [];
    }
  }
}
