/**
 * The service and service-type forms shared by the labour home screen and the
 * service manager: the add-type check, the create-service check, and the
 * records they build.
 */
module ServiceForms {
  import opened Wrappers
  import opened Text
  import opened Api

  /** Why a labour-side handler stopped before sending anything (one per warning toast). */
  datatype FormError =
    | SessionExpired        // "Session expired. Please login again."
    | NoServiceSelected     // "Please select a service"
    | InvalidType           // "Enter valid type name and type price"
    | MissingServiceDetails // "Enter service name and either default price or at least one service type"
    | MissingRequestDetails // "Please select service and address"

  /** A typed price that the handlers accept: parsed, and above zero. */
  predicate IsPositivePrice(price: Option<Double>) {
    price.Some? && GreaterThanZero(price.value)
  }

  /**
   * The add-type rejection as written in both screens:
   * `name.isBlank() || parsedTypePrice == null || parsedTypePrice <= 0.0`.
   */
  predicate TypeRejectedAsWritten(name: string, price: Option<Double>) {
    IsBlank(name) || price.None? || AtMostZero(price.value)
  }

  /** The rejection written with `!(price > 0.0)`, which is what the warning asks for. */
  predicate TypeRejected(name: string, price: Option<Double>) {
    IsBlank(name) || !IsPositivePrice(price)
  }

  /** The two checks differ exactly on a parsed `NaN` price under a non-blank name. */
  lemma TypeChecksDifferOnlyOnNaN(name: string, price: Option<Double>)
    ensures TypeRejectedAsWritten(name, price) != TypeRejected(name, price)
      <==> !IsBlank(name) && price == Some(NaN)
  {
    if price.Some? {
      ZeroComparisons(price.value);
    }
  }

  /** The as-written check lets a type whose price is `NaN` through, and `NaN` is not above zero. */
  lemma AsWrittenAcceptsNaNPrice()
    ensures !TypeRejectedAsWritten("Interior", Some(NaN))
    ensures !GreaterThanZero(NaN)
  {
    assert "Interior"[0] == 'I' && !IsWhitespace('I');
  }

  /** A service type that the forms can build: a trimmed visible name, a positive price, tidy photo URLs. */
  predicate WellFormedType(t: ServiceTypeItem) {
    && t.serviceTypeId.None?
    && !IsBlank(t.typeName) && Trim(t.typeName) == t.typeName
    && GreaterThanZero(t.typePrice)
    && (forall k | 0 <= k < |t.photoUrls| :: !IsBlank(t.photoUrls[k]) && Trim(t.photoUrls[k]) == t.photoUrls[k])
  }

  /** Every pending type of a form is one the add-type handler can build. */
  predicate AllWellFormed(types: seq<ServiceTypeItem>) {
    forall t | t in types :: WellFormedType(t)
  }

  /**
   * The add-type handler: reject a blank name or a price that is not above
   * zero; otherwise build the item from the trimmed name, the description
   * (blank sent as `null`), the plan and the comma-separated photo URLs.
   */
  function NewServiceType(name: string, description: string, plan: Option<string>,
                          price: Option<Double>, photos: string): (r: Result<ServiceTypeItem, FormError>)
    ensures r.Failure? <==> TypeRejected(name, price)
    ensures r.Failure? ==> r.error == InvalidType
    ensures r.Success? ==> WellFormedType(r.value)
    ensures r.Success? ==> r.value.typeName == Trim(name) && r.value.typePrice == price.value
    ensures r.Success? ==> r.value.typeDescription == TrimOrNull(description)
    ensures r.Success? ==> r.value.subscriptionPlan == plan && r.value.photoUrls == ParseUrlList(photos)
  {
    if TypeRejected(name, price) then Failure(InvalidType)
    else
      TrimIdempotent(name);
      Success(ServiceTypeItem(None, Trim(name), TrimOrNull(description), plan, price.value, ParseUrlList(photos)))
  }

  /** The add-type handler as written, reaching the item with the as-written check. */
  function NewServiceTypeAsWritten(name: string, description: string, plan: Option<string>,
                                   price: Option<Double>, photos: string): (r: Result<ServiceTypeItem, FormError>)
    ensures r.Failure? <==> TypeRejectedAsWritten(name, price)
    ensures r.Success? ==> r.value.typeName == Trim(name) && r.value.typePrice == price.value
  {
    if TypeRejectedAsWritten(name, price) then Failure(InvalidType)
    else Success(ServiceTypeItem(None, Trim(name), TrimOrNull(description), plan, price.value, ParseUrlList(photos)))
  }

  /** With a `NaN` price the as-written handler adds a type whose price is not above zero. */
  lemma AsWrittenAddsNaNType(photos: string)
    ensures NewServiceTypeAsWritten("Interior", "", None, Some(NaN), photos).Success?
    ensures !GreaterThanZero(NewServiceTypeAsWritten("Interior", "", None, Some(NaN), photos).value.typePrice)
    ensures NewServiceType("Interior", "", None, Some(NaN), photos).Failure?
  {
    AsWrittenAcceptsNaNPrice();
  }

  /**
   * The create-service check shared by both screens: a visible name and
   * either a default price above zero or at least one type. The request
   * carries the price only when it is above zero; text fields are trimmed,
   * with blanks sent as `null`.
   */
  function NewService(name: string, description: string, price: Option<Double>, duration: string,
                      types: seq<ServiceTypeItem>, mainImageUrl: Option<string>,
                      gallery: seq<string>): (r: Result<CreateServiceRequest, FormError>)
    ensures r.Failure? <==> IsBlank(name) || (!IsPositivePrice(price) && |types| == 0)
    ensures r.Failure? ==> r.error == MissingServiceDetails
    ensures r.Success? ==> r.value.serviceName == Trim(name) && r.value.serviceName != []
    ensures r.Success? ==> r.value.price.Some? || |r.value.serviceTypes| > 0
    ensures r.Success? ==> (r.value.price.Some? <==> IsPositivePrice(price))
    ensures r.Success? ==> r.value.price.Some? ==> r.value.price == price
    ensures r.Success? ==> r.value.description == TrimOrNull(description) && r.value.duration == TrimOrNull(duration)
    ensures r.Success? ==> r.value.serviceTypes == types
    ensures r.Success? ==> r.value.mainImageUrl == mainImageUrl && r.value.galleryPhotoUrls == gallery
  {
    var hasValidDefaultPrice := IsPositivePrice(price);
    if IsBlank(name) || (!hasValidDefaultPrice && |types| == 0) then Failure(MissingServiceDetails)
    else
      Success(CreateServiceRequest(
        Trim(name), TrimOrNull(description), if hasValidDefaultPrice then price else None,
        TrimOrNull(duration), types, mainImageUrl, gallery))
  }
}
